/** The three string operations the dialogue engine is built on:
    `toLowerCase` (for the characters that lower-case to ASCII letters),
    `includes` and `trim`. */
module Strings {

  /** The characters whose `toLowerCase` is a single ASCII letter other
      than themselves: the ASCII capitals and U+212A KELVIN SIGN. */
  predicate IsCapital(c: char)
  {
    'A' <= c <= 'Z' || c == '\U{212A}'
  }

  /** `toLowerCase` on one character, for the characters that lower-case to
      an ASCII letter. */
  function LowerChar(c: char): char
  {
    if 'A' <= c <= 'Z' then (c as int + 32) as char
    else if c == '\U{212A}' then 'k'
    else c
  }

  /** `s.toLowerCase()`: capitals become their lower-case letters; every other
      character is kept. */
  function Lower(s: string): (r: string)
    ensures |r| == |s|
    ensures forall i :: 0 <= i < |r| ==> !IsCapital(r[i])
    ensures forall i :: 0 <= i < |s| && !IsCapital(s[i]) ==> r[i] == s[i]
    ensures forall i :: 0 <= i < |s| && 'A' <= s[i] <= 'Z' ==> r[i] as int == s[i] as int + 32
    ensures forall i :: 0 <= i < |s| && s[i] == '\U{212A}' ==> r[i] == 'k'
  {
    seq(|s|, i requires 0 <= i < |s| => LowerChar(s[i]))
  }

  /** Lower-casing twice is lower-casing once. */
  lemma LowerIdempotent(s: string)
    ensures Lower(Lower(s)) == Lower(s)
  {
  }

  // ---------------------------------------------------------------------------
  // Substring search

  /** k occurs in s starting at index i. */
  predicate OccursAt(s: string, k: string, i: nat)
  {
    i + |k| <= |s| && s[i..i + |k|] == k
  }

  /** `s.includes(k)`: k occurs in s at some index. */
  predicate Contains(s: string, k: string): (b: bool)
    ensures b ==> |k| <= |s|
    ensures k == [] ==> b
  {
    assert k == [] ==> OccursAt(s, k, 0);
    exists i :: 0 <= i <= |s| && OccursAt(s, k, i)
  }

  /** `ks.some(k => s.includes(k))`, tested in the order of ks, as a chain of `||`. */
  predicate AnyIn(s: string, ks: seq<string>): (b: bool)
    ensures forall j :: 0 <= j < |ks| && Contains(s, ks[j]) ==> b
    decreases |ks|
  {
    ks != [] && (Contains(s, ks[0]) || AnyIn(s, ks[1..]))
  }

  lemma {:induction false} AnyInIff(s: string, ks: seq<string>)
    ensures AnyIn(s, ks) <==> exists j :: 0 <= j < |ks| && Contains(s, ks[j])
    decreases |ks|
  {
    if ks != [] {
      AnyInIff(s, ks[1..]);
      if AnyIn(s, ks[1..]) {
        var j :| 0 <= j < |ks[1..]| && Contains(s, ks[1..][j]);
        assert Contains(s, ks[j + 1]);
      }
      if j :| 0 <= j < |ks| && Contains(s, ks[j]) {
        if j > 0 {
          assert Contains(s, ks[1..][j - 1]);
        }
      }
    }
  }

  /** The characters k[j..] appear in s from index i + j on. */
  predicate MatchesAt(s: string, k: string, i: nat, j: nat)
    requires i + |k| <= |s| && j <= |k|
    decreases |k| - j
  {
    j == |k| || (s[i + j] == k[j] && MatchesAt(s, k, i, j + 1))
  }

  lemma {:induction false} MatchesAtIff(s: string, k: string, i: nat, j: nat)
    requires i + |k| <= |s| && j <= |k|
    ensures MatchesAt(s, k, i, j) <==> forall m :: j <= m < |k| ==> s[i + m] == k[m]
    decreases |k| - j
  {
    if j < |k| {
      MatchesAtIff(s, k, i, j + 1);
    }
  }

  /** A left-to-right scan for k in s over the start positions i, i + 1, ...,
      four positions per step. It decides the same thing as Contains (see
      ContainsIsScan); the grouping keeps the chain of unfoldings short enough
      for the verifier to evaluate it on the engine's literal messages. */
  predicate Scan(s: string, k: string, i: nat)
    decreases |s| - i
  {
    i + |k| <= |s| &&
    (MatchesAt(s, k, i, 0) ||
      (i + 1 + |k| <= |s| && (MatchesAt(s, k, i + 1, 0) ||
        (i + 2 + |k| <= |s| && (MatchesAt(s, k, i + 2, 0) ||
          (i + 3 + |k| <= |s| && (MatchesAt(s, k, i + 3, 0) || Scan(s, k, i + 4))))))))
  }

  /** The scan from i finds every occurrence of k at an index p >= i. */
  lemma {:induction false} ScanComplete(s: string, k: string, i: nat, p: nat)
    requires i <= p && p + |k| <= |s| && MatchesAt(s, k, p, 0)
    ensures Scan(s, k, i)
    decreases p - i
  {
    if p == i + 1 {
      assert MatchesAt(s, k, i + 1, 0);
    } else if p == i + 2 {
      assert MatchesAt(s, k, i + 2, 0);
    } else if p == i + 3 {
      assert MatchesAt(s, k, i + 3, 0);
    } else if p >= i + 4 {
      ScanComplete(s, k, i + 4, p);
    }
  }

  /** What the scan from i finds is an occurrence of k at an index p >= i. */
  lemma {:induction false} ScanSound(s: string, k: string, i: nat) returns (p: nat)
    requires Scan(s, k, i)
    ensures i <= p && p + |k| <= |s| && MatchesAt(s, k, p, 0)
    decreases |s| - i
  {
    if MatchesAt(s, k, i, 0) {
      p := i;
    } else if MatchesAt(s, k, i + 1, 0) {
      p := i + 1;
    } else if MatchesAt(s, k, i + 2, 0) {
      p := i + 2;
    } else if MatchesAt(s, k, i + 3, 0) {
      p := i + 3;
    } else {
      p := ScanSound(s, k, i + 4);
    }
  }

  lemma MatchesIffOccurs(s: string, k: string, p: nat)
    requires p + |k| <= |s|
    ensures MatchesAt(s, k, p, 0) <==> OccursAt(s, k, p)
  {
    MatchesAtIff(s, k, p, 0);
    var w := s[p..p + |k|];
    assert forall m :: 0 <= m < |k| ==> w[m] == s[p + m];
  }

  /** The scan decides `includes`. */
  lemma ContainsIsScan(s: string, k: string)
    ensures Contains(s, k) <==> Scan(s, k, 0)
  {
    if Contains(s, k) {
      var i :| 0 <= i <= |s| && OccursAt(s, k, i);
      MatchesIffOccurs(s, k, i);
      ScanComplete(s, k, 0, i);
    }
    if Scan(s, k, 0) {
      var p := ScanSound(s, k, 0);
      MatchesIffOccurs(s, k, p);
    }
  }

  /** A keyword that occurs inside a longer one is found wherever the longer
      one is. */
  lemma ContainsPart(s: string, whole: string, k: string, off: nat)
    requires OccursAt(whole, k, off)
    ensures Contains(s, whole) ==> Contains(s, k)
  {
    if Contains(s, whole) {
      var i :| 0 <= i <= |s| && OccursAt(s, whole, i);
      forall m | 0 <= m < |k|
        ensures s[i + off + m] == k[m]
      {
        assert s[i..i + |whole|][off + m] == whole[off..off + |k|][m];
      }
      assert s[i + off..i + off + |k|] == k;
      assert OccursAt(s, k, i + off);
    }
  }

  /** Every character of an occurrence of k is a character of s. */
  lemma OccurrenceHasChar(s: string, k: string, i: nat, c: char)
    requires c in k
    ensures OccursAt(s, k, i) ==> c in s
  {
    if OccursAt(s, k, i) {
      var p :| 0 <= p < |k| && k[p] == c;
      assert s[i..i + |k|][p] == c;
    }
  }

  /** A keyword with a character that s does not have does not occur in s. */
  lemma AbsentByChar(s: string, k: string, c: char)
    requires c in k && c !in s
    ensures !Contains(s, k)
  {
    forall i | 0 <= i <= |s|
      ensures !OccursAt(s, k, i)
    {
      OccurrenceHasChar(s, k, i, c);
    }
  }

  /** No keyword of ks occurs in s when each has a character, the matching
      one of w, that s does not have. */
  lemma NoneIn(s: string, ks: seq<string>, w: seq<char>)
    requires |w| == |ks|
    requires forall j :: 0 <= j < |ks| ==> w[j] in ks[j] && w[j] !in s
    ensures !AnyIn(s, ks)
  {
    forall j | 0 <= j < |ks|
      ensures !Contains(s, ks[j])
    {
      AbsentByChar(s, ks[j], w[j]);
    }
    AnyInIff(s, ks);
  }

  // ---------------------------------------------------------------------------
  // Trimming

  /** The characters `String.prototype.trim` removes: the ECMAScript
      WhiteSpace and LineTerminator code points. */
  predicate IsSpace(c: char)
  {
    c in {'\t', '\n', '\U{B}', '\U{C}', '\r', ' ', '\U{A0}', '\U{1680}',
          '\U{2000}', '\U{2001}', '\U{2002}', '\U{2003}', '\U{2004}', '\U{2005}',
          '\U{2006}', '\U{2007}', '\U{2008}', '\U{2009}', '\U{200A}',
          '\U{2028}', '\U{2029}', '\U{202F}', '\U{205F}', '\U{3000}', '\U{FEFF}'}
  }

  /** The end of the run of white space that starts at index i. */
  function SpacesFrom(s: string, i: nat): (n: nat)
    requires i <= |s|
    ensures i <= n <= |s|
    ensures forall m :: i <= m < n ==> IsSpace(s[m])
    ensures n < |s| ==> !IsSpace(s[n])
    decreases |s| - i
  {
    if i < |s| && IsSpace(s[i]) then SpacesFrom(s, i + 1) else i
  }

  /** The start of the run of white space that ends just before index j. */
  function SpacesBefore(s: string, j: nat): (n: nat)
    requires j <= |s|
    ensures n <= j
    ensures forall m :: n <= m < j ==> IsSpace(s[m])
    ensures 0 < n ==> !IsSpace(s[n - 1])
    decreases j
  {
    if 0 < j && IsSpace(s[j - 1]) then SpacesBefore(s, j - 1) else j
  }

  /** `s.trim()`: s without its leading and trailing white space. */
  function Trim(s: string): (r: string)
    ensures exists i, j :: 0 <= i <= j <= |s| && r == s[i..j] &&
                           (forall m :: 0 <= m < i ==> IsSpace(s[m])) &&
                           (forall m :: j <= m < |s| ==> IsSpace(s[m]))
    ensures r != [] ==> !IsSpace(r[0]) && !IsSpace(r[|r| - 1])
    ensures r == [] <==> forall m :: 0 <= m < |s| ==> IsSpace(s[m])
  {
    var i := SpacesFrom(s, 0);
    if i == |s| then
      assert s[i..i] == [];
      []
    else
      var j := SpacesBefore(s, |s|);
      s[i..j]
  }
}
