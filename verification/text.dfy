/**
 The string primitives the consent form relies on: ECMAScript's
 `String.prototype.trim`, used by validation to reject whitespace-only
 input, and a separator join, used as the reference definition of the
 road-name address suffix.
 */
module Text {

  /** The code points ECMAScript classes as WhiteSpace or LineTerminator:
      TAB, VT, FF, SPACE, NO-BREAK SPACE, ZERO WIDTH NO-BREAK SPACE, every
      other space separator (Zs), LF, CR, LINE SEPARATOR and PARAGRAPH
      SEPARATOR. These are exactly the characters `trim` strips. */
  predicate IsJsWhitespace(c: char) {
    var n := c as int;
    || n == 0x09 || n == 0x0B || n == 0x0C || n == 0x20 || n == 0xA0 || n == 0xFEFF
    || n == 0x1680 || (0x2000 <= n <= 0x200A) || n == 0x202F || n == 0x205F || n == 0x3000
    || n == 0x0A || n == 0x0D || n == 0x2028 || n == 0x2029
  }

  /** A string holding nothing but whitespace (the empty string included). */
  predicate Blank(s: string) {
    forall i :: 0 <= i < |s| ==> IsJsWhitespace(s[i])
  }

  /** The index of the first non-whitespace character at or after `i`, or
      `|s|` when there is none. */
  function SkipForward(s: string, i: nat): (j: nat)
    requires i <= |s|
    ensures i <= j <= |s|
    ensures forall k :: i <= k < j ==> IsJsWhitespace(s[k])
    ensures j < |s| ==> !IsJsWhitespace(s[j])
    decreases |s| - i
  {
    if i < |s| && IsJsWhitespace(s[i]) then SkipForward(s, i + 1) else i
  }

  /** The index just past the last non-whitespace character before `j` and
      at or after `lo`, or `lo` when there is none. */
  function SkipBackward(s: string, lo: nat, j: nat): (k: nat)
    requires lo <= j <= |s|
    ensures lo <= k <= j
    ensures forall m :: k <= m < j ==> IsJsWhitespace(s[m])
    ensures k > lo ==> !IsJsWhitespace(s[k - 1])
    decreases j
  {
    if j > lo && IsJsWhitespace(s[j - 1]) then SkipBackward(s, lo, j - 1) else j
  }

  /** `String.prototype.trim`: whitespace removed from both ends, leaving
      no whitespace at either end; empty exactly when `s` is blank. */
  function Trim(s: string): (r: string)
    ensures |r| <= |s|
    ensures r == [] <==> Blank(s)
    ensures r != [] ==> !IsJsWhitespace(r[0]) && !IsJsWhitespace(r[|r| - 1])
  {
    var start := SkipForward(s, 0);
    var end := SkipBackward(s, start, |s|);
    s[start..end]
  }

  /** `trim` removes nothing but whitespace: the input is the trimmed text
      with a blank prefix before it and a blank suffix after it. */
  lemma TrimRemovesOnlyWhitespace(s: string)
    ensures var lead := SkipForward(s, 0); var r := Trim(s);
      && lead + |r| <= |s|
      && s == s[..lead] + r + s[lead + |r|..]
      && Blank(s[..lead])
      && Blank(s[lead + |r|..])
  {
  }

  /** `!s.trim()`: a string is falsy exactly when it is empty, so this holds
      exactly when nothing but whitespace was typed. */
  predicate TrimsToNothing(s: string)
    ensures TrimsToNothing(s) <==> Blank(s)
  {
    Trim(s) == ""
  }

  /** Concatenates `parts`, with `sep` between neighbours. */
  function Join(parts: seq<string>, sep: string): string
    decreases |parts|
  {
    if |parts| == 0 then ""
    else if |parts| == 1 then parts[0]
    else parts[0] + sep + Join(parts[1..], sep)
  }

  /** The non-empty strings of `parts`, in their original order. */
  function NonEmpty(parts: seq<string>): (r: seq<string>)
    ensures |r| <= |parts|
    ensures forall i :: 0 <= i < |r| ==> r[i] != ""
    ensures forall x :: x in r <==> x in parts && x != ""
    decreases |parts|
  {
    if |parts| == 0 then []
    else if parts[0] == "" then NonEmpty(parts[1..])
    else [parts[0]] + NonEmpty(parts[1..])
  }
}
