/** String helpers the conversation relies on: `trim()` as ECMAScript defines it,
    an ASCII-only `toLowerCase()`, and substring containment (`includes`). */
module Text {

  /** The characters `String.prototype.trim` strips: ECMAScript WhiteSpace
      (TAB, VT, FF, ZWNBSP and every Zs space separator) and LineTerminator
      (LF, CR, LS, PS). */
  predicate IsTrimSpace(c: char) {
    var n := c as int;
    || n == 0x09 || n == 0x0A || n == 0x0B || n == 0x0C || n == 0x0D
    || n == 0x20 || n == 0xA0 || n == 0x1680
    || (0x2000 <= n <= 0x200A)
    || n == 0x2028 || n == 0x2029 || n == 0x202F || n == 0x205F
    || n == 0x3000 || n == 0xFEFF
  }

  /** Every character of `s` is trimmed away. */
  predicate AllSpace(s: string) {
    forall i :: 0 <= i < |s| ==> IsTrimSpace(s[i])
  }

  /** A string that `trim` leaves alone: empty, or starting and ending with a
      character that is not trimmed. */
  predicate Tight(s: string) {
    |s| == 0 || (!IsTrimSpace(s[0]) && !IsTrimSpace(s[|s| - 1]))
  }

  /** Length of the run of trimmed characters at the front of `s`. */
  function LeadingSpaces(s: string): (k: nat)
    ensures k <= |s|
    ensures AllSpace(s[..k])
    ensures k < |s| ==> !IsTrimSpace(s[k])
  {
    if |s| > 0 && IsTrimSpace(s[0]) then
      var k' := LeadingSpaces(s[1..]);
      assert s[1..][..k'] == s[1..k' + 1];
      1 + k'
    else
      0
  }

  /** Length of the run of trimmed characters that ends just before index
      `j` of `s`. */
  function SpacesBefore(s: string, j: nat): (k: nat)
    requires j <= |s|
    ensures k <= j
    ensures forall m :: j - k <= m < j ==> IsTrimSpace(s[m])
    ensures k < j ==> !IsTrimSpace(s[j - 1 - k])
    decreases j
  {
    if j > 0 && IsTrimSpace(s[j - 1]) then 1 + SpacesBefore(s, j - 1) else 0
  }

  /** Length of the run of trimmed characters at the back of `s`. */
  function TrailingSpaces(s: string): (k: nat)
    ensures k <= |s|
    ensures AllSpace(s[|s| - k..])
    ensures k < |s| ==> !IsTrimSpace(s[|s| - 1 - k])
  {
    var k := SpacesBefore(s, |s|);
    k
  }

  /** Index one past the last character `trim` keeps (the end of the kept
      slice that starts at `LeadingSpaces(s)`). */
  function TrimEnd(s: string): (j: nat)
    ensures LeadingSpaces(s) <= j <= |s|
    ensures AllSpace(s[j..])
    ensures j > LeadingSpaces(s) ==> !IsTrimSpace(s[j - 1])
  {
    var i := LeadingSpaces(s);
    var t := TrailingSpaces(s[i..]);
    assert s[i..][|s| - i - t..] == s[|s| - t..];
    |s| - t
  }

  /** `s.trim()`: `s` with its leading and trailing trimmed characters removed.
      The result is the slice between an all-space prefix and an all-space
      suffix, and it is tight. */
  function Trim(s: string): (r: string)
    ensures Tight(r)
    ensures r == s[LeadingSpaces(s)..TrimEnd(s)]
    ensures AllSpace(s[..LeadingSpaces(s)]) && AllSpace(s[TrimEnd(s)..])
    ensures r == [] <==> AllSpace(s)
  {
    var i := LeadingSpaces(s);
    var j := TrimEnd(s);
    assert i == j ==> AllSpace(s) by {
      if i == j {
        forall k | 0 <= k < |s| ensures IsTrimSpace(s[k]) {
          assert s[k] == s[..i][k];
        }
      }
    }
    s[i..j]
  }

  /** The leading run of a string made of an all-space `p` followed by a
      non-empty tight `r` is exactly `p`. */
  lemma {:induction false} LeadingSpacesOfSplit(p: string, r: string, q: string)
    requires AllSpace(p) && |r| > 0 && Tight(r)
    ensures LeadingSpaces(p + r + q) == |p|
  {
    var s := p + r + q;
    if |p| == 0 {
      assert s[0] == r[0];
    } else {
      assert s[1..] == p[1..] + r + q;
      LeadingSpacesOfSplit(p[1..], r, q);
    }
  }

  /** The trailing run of a tight non-empty `r` followed by an all-space `q`
      is exactly `q`. */
  lemma TrailingSpacesOfSplit(r: string, q: string)
    requires AllSpace(q) && |r| > 0 && Tight(r)
    ensures TrailingSpaces(r + q) == |q|
  {
    var s := r + q;
    assert s[|r| - 1] == r[|r| - 1];
    assert forall m :: |r| <= m < |s| ==> s[m] == q[m - |r|];
  }

  /** Reference characterisation of `trim`: whenever `s` splits into an
      all-space prefix, a tight middle and an all-space suffix, `trim` returns
      that middle. Together with the contract of `Trim` (which exhibits such a
      split) this pins the result down uniquely. */
  lemma TrimUnique(p: string, r: string, q: string)
    requires AllSpace(p) && Tight(r) && AllSpace(q)
    ensures Trim(p + r + q) == r
  {
    var s := p + r + q;
    if |r| == 0 {
      assert s == p + q;
      assert AllSpace(s) by {
        forall i | 0 <= i < |s| ensures IsTrimSpace(s[i]) {
          if i < |p| { assert s[i] == p[i]; } else { assert s[i] == q[i - |p|]; }
        }
      }
    } else {
      LeadingSpacesOfSplit(p, r, q);
      assert s[|p|..] == r + q;
      TrailingSpacesOfSplit(r, q);
    }
  }

  /** Trimming twice is trimming once. */
  lemma TrimIdempotent(s: string)
    ensures Trim(Trim(s)) == Trim(s)
  {
    TrimOfTight(Trim(s));
  }

  /** A tight string is its own trim. */
  lemma TrimOfTight(r: string)
    requires Tight(r)
    ensures Trim(r) == r
  {
    if |r| > 0 {
      assert LeadingSpaces(r) == 0;
      assert r[0..][|r| - 1] == r[|r| - 1];
    }
  }

  /** `c.toLowerCase()` restricted to ASCII: `A`..`Z` map to `a`..`z`, every
      other character is left as it is. */
  function LowerChar(c: char): (d: char)
    ensures !('A' <= d <= 'Z')
    ensures 'a' <= d <= 'z' <==> 'a' <= c <= 'z' || 'A' <= c <= 'Z'
    ensures !('A' <= c <= 'Z') ==> d == c
  {
    if 'A' <= c <= 'Z' then (c as int + 32) as char else c
  }

  /** `s.toLowerCase()` with ASCII-only case folding, character by character. */
  function ToLower(s: string): (r: string)
    ensures |r| == |s|
    ensures forall i :: 0 <= i < |s| ==> r[i] == LowerChar(s[i])
  {
    if s == [] then [] else [LowerChar(s[0])] + ToLower(s[1..])
  }

  /** A string with no ASCII capital letter is its own lower-case form. */
  lemma ToLowerOfLower(s: string)
    requires forall i :: 0 <= i < |s| ==> !('A' <= s[i] <= 'Z')
    ensures ToLower(s) == s
  {
  }

  /** Lower-casing is idempotent. */
  lemma ToLowerIdempotent(s: string)
    ensures ToLower(ToLower(s)) == ToLower(s)
  {
    ToLowerOfLower(ToLower(s));
  }

  /** A lower-case letter absent from `s` in both cases is absent from its
      lower-case form. */
  lemma LowerKeepsAbsent(s: string, c: char)
    requires 'a' <= c <= 'z' && c !in s && (c as int - 32) as char !in s
    ensures c !in ToLower(s)
  {
    forall i | 0 <= i < |s| ensures ToLower(s)[i] != c {
      assert s[i] in s;
    }
  }

  /** `pat` occurs in `s` starting at index `i`. */
  predicate MatchAt(s: string, pat: string, i: nat) {
    i + |pat| <= |s| && s[i..i + |pat|] == pat
  }

  /** Reference definition of substring containment. */
  ghost predicate Occurs(s: string, pat: string) {
    exists i: nat :: MatchAt(s, pat, i)
  }

  /** When `pat` does not start `s`, it occurs in `s` iff it occurs in `s[1..]`. */
  lemma OccursShift(s: string, pat: string)
    requires |pat| <= |s| && s[..|pat|] != pat
    ensures Occurs(s, pat) <==> Occurs(s[1..], pat)
  {
    if Occurs(s, pat) {
      var i: nat :| MatchAt(s, pat, i);
      assert i != 0;
      assert s[1..][i - 1..i - 1 + |pat|] == s[i..i + |pat|];
      assert MatchAt(s[1..], pat, i - 1);
    }
    if Occurs(s[1..], pat) {
      var i: nat :| MatchAt(s[1..], pat, i);
      assert s[1..][i..i + |pat|] == s[i + 1..i + 1 + |pat|];
      assert MatchAt(s, pat, i + 1);
    }
  }

  /** `s.includes(pat)`: substring containment, scanning left to right. */
  function Includes(s: string, pat: string): (b: bool)
    ensures b <==> Occurs(s, pat)
    decreases |s|
  {
    if |pat| > |s| then
      false
    else if s[..|pat|] == pat then
      assert MatchAt(s, pat, 0);
      true
    else
      OccursShift(s, pat);
      Includes(s[1..], pat)
  }

  /** A pattern whose character `c` never appears in `s` does not occur in `s`. */
  lemma AbsentCharBlocksMatch(s: string, pat: string, c: char)
    requires c in pat && c !in s
    ensures !Occurs(s, pat)
  {
    var j :| 0 <= j < |pat| && pat[j] == c;
    forall i: nat | i + |pat| <= |s| ensures !MatchAt(s, pat, i) {
      assert s[i..i + |pat|][j] == s[i + j];
    }
  }
}
