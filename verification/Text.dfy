/** C strings as the server uses them: bounded copies and case-blind comparison. */
module Text {

  /** tolower in the C locale. */
  function Lower(c: char): (l: char)
    ensures 'A' <= c <= 'Z' <==> l != c
    ensures 'A' <= c <= 'Z' ==> l as int - c as int == 'a' as int - 'A' as int
  {
    if 'A' <= c <= 'Z' then (c as int + 32) as char else c
  }

  /** The lower-cased spelling of a name: its key. */
  function Fold(s: string): (k: string) {
    seq(|s|, i requires 0 <= i < |s| => Lower(s[i]))
  }

  /** strcasecmp(a, b) == 0. */
  predicate SameName(a: string, b: string) {
    Fold(a) == Fold(b)
  }

  /** snprintf(buffer, size, "%s", s): keeps size - 1 characters. */
  function Clip(s: string, size: nat): (c: string)
    requires size > 0
    ensures c <= s && |c| < size
    ensures c == s <==> |s| < size
    ensures |s| >= size ==> |c| == size - 1
  {
    if |s| < size then s else s[..size - 1]
  }
}
