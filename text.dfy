/** The two Python string methods the core relies on: `str.strip()` and `str.lower()`. */
module Text {

  /** Whitespace as `str.strip()` sees it, within ASCII: `str.isspace` holds for space, tab, line
      feed, carriage return, vertical tab and form feed, and for the four separators 0x1C-0x1F. */
  predicate IsSpace(c: char) {
    || c == ' ' || c == '\t' || c == '\n' || c == '\r' || c == '\U{B}' || c == '\U{C}'
    || c == '\U{1C}' || c == '\U{1D}' || c == '\U{1E}' || c == '\U{1F}'
  }

  /** Where `s.strip()` starts: the first position at or after `lo` holding no whitespace, or `|s|`. */
  function StripStart(s: string, lo: nat): (i: nat)
    requires lo <= |s|
    ensures lo <= i <= |s|
    ensures forall k :: lo <= k < i ==> IsSpace(s[k])
    ensures i < |s| ==> !IsSpace(s[i])
    decreases |s| - lo
  {
    if lo < |s| && IsSpace(s[lo]) then StripStart(s, lo + 1) else lo
  }

  /** Where `s.strip()` ends: the position just after the last non-whitespace of `s[lo..hi]`, or `lo`
      when there is none. */
  function StripEnd(s: string, lo: nat, hi: nat): (j: nat)
    requires lo <= hi <= |s|
    ensures lo <= j <= hi
    ensures forall k :: j <= k < hi ==> IsSpace(s[k])
    ensures lo < j ==> !IsSpace(s[j - 1])
    decreases hi
  {
    if lo < hi && IsSpace(s[hi - 1]) then StripEnd(s, lo, hi - 1) else hi
  }

  /** `s.strip()`: `s` is some whitespace, then the result, then some whitespace,
      and the result neither starts nor ends with whitespace. */
  function Strip(s: string): (r: string)
    ensures exists i, j :: 0 <= i <= j <= |s| && r == s[i..j]
                           && (forall k :: 0 <= k < i ==> IsSpace(s[k]))
                           && (forall k :: j <= k < |s| ==> IsSpace(s[k]))
    ensures r == [] || (!IsSpace(r[0]) && !IsSpace(r[|r| - 1]))
  {
    var i := StripStart(s, 0);
    var j := StripEnd(s, i, |s|);
    s[i..j]
  }

  /** A string that is only whitespace strips to the empty string, as Python's `not to` sees it. */
  lemma {:induction false} StripBlank(s: string)
    ensures Strip(s) == [] <==> forall k :: 0 <= k < |s| ==> IsSpace(s[k])
  {
    var r := Strip(s);
    if r == [] {
      var i, j :| 0 <= i <= j <= |s| && r == s[i..j]
                  && (forall k :: 0 <= k < i ==> IsSpace(s[k]))
                  && (forall k :: j <= k < |s| ==> IsSpace(s[k]));
      assert i == j;
    } else {
      var i, j :| 0 <= i <= j <= |s| && r == s[i..j];
      assert s[i] == r[0];
    }
  }

  function LowerChar(c: char): char {
    if 'A' <= c <= 'Z' then (c as int + 32) as char else c
  }

  /** `s.lower()` on ASCII letters; every other character is kept. */
  function Lower(s: string): (r: string)
    ensures |r| == |s|
    ensures forall i :: 0 <= i < |s| ==> r[i] == LowerChar(s[i])
  {
    if s == [] then [] else [LowerChar(s[0])] + Lower(s[1..])
  }
}
