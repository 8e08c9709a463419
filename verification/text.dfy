/** Case mapping on strings, as far as the confirmation prompt needs it. */
module Text {

  /** Lower-case an ASCII capital letter; every other character is kept. */
  function LowerChar(c: char): char
  {
    if 'A' <= c <= 'Z' then (c as int - 'A' as int + 'a' as int) as char else c
  }

  /** The string with every character lower-cased; the model of `str.lower`. */
  function Lower(s: string): (r: string)
    ensures |r| == |s|
    ensures forall k :: 0 <= k < |s| ==> r[k] == LowerChar(s[k])
  {
    if |s| == 0 then [] else [LowerChar(s[0])] + Lower(s[1..])
  }

  /** Under the ASCII-only `LowerChar`, the only characters that lower-case
      to a given small letter are that letter and its capital. */
  lemma LowerCharPreimage(c: char, l: char)
    requires 'a' <= l <= 'z'
    ensures LowerChar(c) == l <==> c == l || c as int == l as int - 32
  {
  }
}
