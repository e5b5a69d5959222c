/** Bytes, and the white space of the text the tools read. */
module Texts {
  newtype Byte = x: int | 0 <= x < 256

  type Bytes = seq<Byte>

  /** Characters at which `str.splitlines()` ends a line. */
  predicate LineBreak(c: char) {
    var n := c as int;
    10 <= n <= 13 || 0x1c <= n <= 0x1e || n == 0x85 || n == 0x2028 || n == 0x2029
  }

  /** Characters at which `str.split()` separates fields. */
  predicate White(c: char) {
    var n := c as int;
    || LineBreak(c) || n == 9 || n == 0x1f || n == 0x20 || n == 0xa0 || n == 0x1680 || 0x2000 <= n <= 0x200a
    || n == 0x202f || n == 0x205f || n == 0x3000
  }

  /** The longest prefix without a character satisfying `stop`. */
  function Until(s: string, stop: char -> bool): (w: string)
    ensures |w| <= |s| && w == s[..|w|] && (forall i :: 0 <= i < |w| ==> !stop(w[i])) && (|w| < |s| ==> stop(s[|w|]))
  {
    if s == [] || stop(s[0]) then [] else [s[0]] + Until(s[1..], stop)
  }

  lemma {:induction false} UntilStops(w: string, rest: string, stop: char -> bool)
    requires (forall i :: 0 <= i < |w| ==> !stop(w[i])) && (rest != [] ==> stop(rest[0]))
    ensures Until(w + rest, stop) == w
  {
    if w == [] {
      assert w + rest == rest;
    } else {
      assert (w + rest)[1..] == w[1..] + rest;
      UntilStops(w[1..], rest, stop);
    }
  }
}
