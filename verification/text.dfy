/**
  String helpers for the query router: ASCII lower-casing (Python's
  `str.lower` restricted to ASCII letters) and substring search (Python's
  `word in text`).
 */
module Text {

  predicate IsAsciiUpper(c: char) {
    'A' <= c <= 'Z'
  }

  /** Maps an ASCII capital to its small letter and leaves every other character alone. */
  function LowerChar(c: char): (d: char)
    ensures !IsAsciiUpper(d)
  {
    if IsAsciiUpper(c) then (c as int - 'A' as int + 'a' as int) as char else c
  }

  /** Lower-cases a string character by character, left to right. */
  function Lower(s: string): (r: string)
    ensures |r| == |s|
    ensures forall i :: 0 <= i < |s| ==> r[i] == LowerChar(s[i])
  {
    if |s| == 0 then [] else [LowerChar(s[0])] + Lower(s[1..])
  }

  /** Lower-casing twice is the same as lower-casing once. */
  lemma LowerIdempotent(s: string)
    ensures Lower(Lower(s)) == Lower(s)
  {
  }

  /** The ASCII capital whose lower case is `c`, or `c` itself when it is not a small letter. */
  function UpperChar(c: char): char {
    if 'a' <= c <= 'z' then (c as int - 'a' as int + 'A' as int) as char else c
  }

  /** `w` occurs in `s` starting at index `i`. */
  ghost predicate OccursAt(s: string, w: string, i: int) {
    0 <= i && i + |w| <= |s| && s[i..i + |w|] == w
  }

  /** Python's `w in s`: a left-to-right scan for `w` in `s` (the empty word is always found). */
  function Contains(s: string, w: string): (b: bool)
    ensures |w| == 0 ==> b
    ensures b ==> |w| <= |s|
    decreases |s|
  {
    if |w| <= |s| && s[..|w|] == w then true
    else if |s| <= |w| then false
    else Contains(s[1..], w)
  }

  /** An occurrence at the front is a prefix match. */
  lemma OccursAtFront(s: string, w: string)
    ensures OccursAt(s, w, 0) <==> |w| <= |s| && s[..|w|] == w
  {
  }

  /** Dropping the first character moves every occurrence one place left. */
  lemma OccursShift(s: string, w: string, i: int)
    requires |s| > 0 && i >= 0
    ensures OccursAt(s[1..], w, i) <==> OccursAt(s, w, i + 1)
  {
  }

  /** The scan finds `w` exactly when `w` occurs at some position of `s`. */
  lemma {:induction false} ContainsIffOccurs(s: string, w: string)
    ensures Contains(s, w) <==> exists i :: OccursAt(s, w, i)
    decreases |s|
  {
    OccursAtFront(s, w);
    if |w| <= |s| && s[..|w|] == w {
      assert OccursAt(s, w, 0);
    } else if |s| <= |w| {
      assert forall i :: !OccursAt(s, w, i);
    } else {
      ContainsIffOccurs(s[1..], w);
      if exists i :: OccursAt(s, w, i) {
        var i :| OccursAt(s, w, i);
        OccursShift(s, w, i - 1);
      }
      if exists j :: OccursAt(s[1..], w, j) {
        var j :| OccursAt(s[1..], w, j);
        OccursShift(s, w, j);
      }
    }
  }

  /**
    A word that contains a letter the text lacks in either case does not
    occur in the lower-cased text.
   */
  lemma AbsentLetter(s: string, w: string, ch: char)
    requires ch in w && !IsAsciiUpper(ch)
    requires ch !in s && UpperChar(ch) !in s
    ensures forall i :: !OccursAt(Lower(s), w, i)
  {
  }

  /** A word spelled, up to ASCII case, at position `i` of `s` occurs there in the lower-cased text. */
  lemma OccursLowered(s: string, w: string, i: nat)
    requires i + |w| <= |s|
    requires forall k :: 0 <= k < |w| ==> LowerChar(s[i + k]) == w[k]
    ensures OccursAt(Lower(s), w, i)
  {
  }
}
