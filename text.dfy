/**
 * The draft text's `trim()`: removal of leading and trailing white space,
 * with white space given as an explicit set of characters.
 */
module Text {

  /** The characters `String.prototype.trim` removes: the ECMAScript
      WhiteSpace set (tab, vertical tab, form feed, space, no-break space,
      zero-width no-break space and the Unicode space separators) and the
      LineTerminator set (line feed, carriage return, line and paragraph
      separators). All of them lie in the Basic Multilingual Plane. */
  predicate IsWhitespace(c: char)
    ensures IsWhitespace(c) ==> (c as int) < 0x1_0000
  {
    c == '\t' || c == '\U{000B}' || c == '\U{000C}' || c == ' ' ||
    c == '\U{00A0}' || c == '\U{FEFF}' || c == '\U{1680}' ||
    ('\U{2000}' <= c <= '\U{200A}') || c == '\U{202F}' || c == '\U{205F}' ||
    c == '\U{3000}' || c == '\n' || c == '\r' || c == '\U{2028}' || c == '\U{2029}'
  }

  /** Among ASCII characters, white space is exactly tab, line feed,
      vertical tab, form feed, carriage return and space. */
  lemma AsciiWhitespace(c: char)
    requires (c as int) < 0x80
    ensures IsWhitespace(c) <==> c in "\t\n\U{000B}\U{000C}\r "
  {
  }

  /** Every character of `s` in positions `lo` to `hi - 1` is white space. */
  predicate WhitespaceBetween(s: string, lo: nat, hi: nat)
    requires lo <= hi <= |s|
  {
    forall i :: lo <= i < hi ==> IsWhitespace(s[i])
  }

  predicate AllWhitespace(s: string) {
    WhitespaceBetween(s, 0, |s|)
  }

  /** `s` neither starts nor ends with white space (the empty string included). */
  predicate Unpadded(s: string) {
    s == [] || (!IsWhitespace(s[0]) && !IsWhitespace(s[|s| - 1]))
  }

  /** `r` is what is left of `s` once some white space is cut from its two ends. */
  ghost predicate WhitespaceMargins(s: string, r: string) {
    exists lo :: 0 <= lo <= |s| - |r| && s[lo..lo + |r|] == r &&
      WhitespaceBetween(s, 0, lo) && WhitespaceBetween(s, lo + |r|, |s|)
  }

  /** The scan from position `i` forward over white space: the first
      position at or after `i` that is not white space, or `|s|`. */
  function SkipForward(s: string, i: nat): (k: nat)
    requires i <= |s|
    ensures i <= k <= |s| && WhitespaceBetween(s, i, k)
    ensures k < |s| ==> !IsWhitespace(s[k])
    decreases |s| - i
  {
    if i < |s| && IsWhitespace(s[i]) then SkipForward(s, i + 1) else i
  }

  /** The scan from position `j` backward over white space, stopping at `lo`:
      the end of the text that remains. */
  function SkipBackward(s: string, lo: nat, j: nat): (k: nat)
    requires lo <= j <= |s|
    ensures lo <= k <= j && WhitespaceBetween(s, k, j)
    ensures k > lo ==> !IsWhitespace(s[k - 1])
    decreases j
  {
    if lo < j && IsWhitespace(s[j - 1]) then SkipBackward(s, lo, j - 1) else j
  }

  /** `s.trim()`: `s` without its leading and trailing white space. */
  function Trim(s: string): (r: string)
    ensures Unpadded(r)
    ensures WhitespaceMargins(s, r)
    ensures r == [] <==> AllWhitespace(s)
  {
    var lo := SkipForward(s, 0);
    var hi := SkipBackward(s, lo, |s|);
    assert WhitespaceMargins(s, s[lo..hi]) by {
      assert s[lo..lo + |s[lo..hi]|] == s[lo..hi];
    }
    assert lo == hi ==> AllWhitespace(s) by {
      if lo == hi {
        forall i | 0 <= i < |s| ensures IsWhitespace(s[i]) {
          if i < lo { assert WhitespaceBetween(s, 0, lo); }
        }
      }
    }
    s[lo..hi]
  }

  /** The forward scan stops exactly at the first character that is not white space. */
  lemma {:induction false} SkipForwardStops(s: string, i: nat, k: nat)
    requires i <= k <= |s| && WhitespaceBetween(s, i, k) && (k < |s| ==> !IsWhitespace(s[k]))
    ensures SkipForward(s, i) == k
    decreases k - i
  {
    if i < k {
      SkipForwardStops(s, i + 1, k);
    }
  }

  /** The backward scan stops exactly after the last character that is not white space. */
  lemma {:induction false} SkipBackwardStops(s: string, lo: nat, j: nat, k: nat)
    requires lo <= k <= j <= |s| && WhitespaceBetween(s, k, j) && (k > lo ==> !IsWhitespace(s[k - 1]))
    ensures SkipBackward(s, lo, j) == k
    decreases j - k
  {
    if k < j {
      SkipBackwardStops(s, lo, j - 1, k);
    }
  }

  /** Trimming is the inverse of padding: whatever white space surrounds an
      unpadded string, trimming gives that string back. */
  lemma TrimOfPadded(before: string, t: string, after: string)
    requires AllWhitespace(before) && AllWhitespace(after) && Unpadded(t)
    ensures Trim(before + t + after) == t
  {
    var s := before + t + after;
    var lo, hi := |before|, |before| + |t|;
    if t == [] {
      assert AllWhitespace(s) by {
        forall i | 0 <= i < |s| ensures IsWhitespace(s[i]) {
          if i < lo { assert s[i] == before[i]; } else { assert s[i] == after[i - lo]; }
        }
      }
    } else {
      assert WhitespaceBetween(s, 0, lo) by {
        forall i | 0 <= i < lo ensures IsWhitespace(s[i]) { assert s[i] == before[i]; }
      }
      assert WhitespaceBetween(s, hi, |s|) by {
        forall i | hi <= i < |s| ensures IsWhitespace(s[i]) { assert s[i] == after[i - hi]; }
      }
      assert s[lo] == t[0] && s[hi - 1] == t[|t| - 1];
      SkipForwardStops(s, 0, lo);
      SkipBackwardStops(s, lo, |s|, hi);
      assert s[lo..hi] == t;
    }
  }

  /** Trimming twice is trimming once. */
  lemma TrimIdempotent(s: string)
    ensures Trim(Trim(s)) == Trim(s)
  {
    var t := Trim(s);
    if t != [] {
      SkipForwardStops(t, 0, 0);
      SkipBackwardStops(t, 0, |t|, |t|);
    }
  }
}
