/** The JavaScript string operations the core relies on. */
module Text {
  import opened Seqs

  /** The code points `String.prototype.trim` removes: ECMAScript WhiteSpace and LineTerminator. */
  predicate IsWhitespace(c: char) {
    || c == '\t' || c == '\n' || c == '\U{000B}' || c == '\U{000C}' || c == '\r' || c == ' '
    || c == '\U{00A0}' || c == '\U{1680}' || ('\U{2000}' <= c <= '\U{200A}')
    || c == '\U{2028}' || c == '\U{2029}' || c == '\U{202F}' || c == '\U{205F}'
    || c == '\U{3000}' || c == '\U{FEFF}'
  }

  /** A string that JavaScript's `s.trim()` turns into the falsy "". */
  predicate IsBlank(s: string) {
    forall i :: 0 <= i < |s| ==> IsWhitespace(s[i])
  }

  /** Drops the leading whitespace: the result is a suffix of `s`, and what is cut off is all whitespace. */
  function TrimStart(s: string): (r: string)
    ensures |r| <= |s| && r == s[|s| - |r|..]
    ensures forall i :: 0 <= i < |s| - |r| ==> IsWhitespace(s[i])
    ensures r != [] ==> !IsWhitespace(r[0])
  {
    if s != [] && IsWhitespace(s[0]) then TrimStart(s[1..]) else s
  }

  /** Drops the trailing whitespace: the result is a prefix of `s`, and what is cut off is all whitespace. */
  function TrimEnd(s: string): (r: string)
    ensures |r| <= |s| && r == s[..|r|]
    ensures forall i :: |r| <= i < |s| ==> IsWhitespace(s[i])
    ensures r != [] ==> !IsWhitespace(r[|r| - 1])
  {
    if s != [] && IsWhitespace(s[|s| - 1]) then TrimEnd(s[..|s| - 1]) else s
  }

  /** `s.trim()`: empty exactly for a blank string; otherwise it starts and ends with non-whitespace. */
  function Trim(s: string): (r: string)
    ensures |r| <= |s|
    ensures r == [] <==> IsBlank(s)
    ensures r != [] ==> !IsWhitespace(r[0]) && !IsWhitespace(r[|r| - 1])
    ensures exists a, b :: 0 <= a <= b <= |s| && r == s[a..b] && IsBlank(s[..a]) && IsBlank(s[b..])
  {
    var t := TrimStart(s);
    var r := TrimEnd(t);
    TrimIsSlice(s, t, r);
    r
  }

  /**
   * Given what the two passes of `Trim` promise, what they cut off is blank, what they keep is one
   * slice of the input, and nothing is kept exactly when the input is blank.
   */
  lemma TrimIsSlice(s: string, t: string, r: string)
    requires |t| <= |s| && t == s[|s| - |t|..] && forall i :: 0 <= i < |s| - |t| ==> IsWhitespace(s[i])
    requires |r| <= |t| && r == t[..|r|] && forall i :: |r| <= i < |t| ==> IsWhitespace(t[i])
    requires t != [] ==> !IsWhitespace(t[0])
    requires r != [] ==> !IsWhitespace(r[|r| - 1])
    ensures r == [] <==> IsBlank(s)
    ensures r != [] ==> !IsWhitespace(r[0]) && !IsWhitespace(r[|r| - 1])
    ensures exists a, b :: 0 <= a <= b <= |s| && r == s[a..b] && IsBlank(s[..a]) && IsBlank(s[b..])
  {
    var a := |s| - |t|;
    var b := a + |r|;
    assert r == s[a..b] by {
      assert t == s[a..];
      assert r == t[..|r|];
    }
    assert IsBlank(s[..a]) by {
      forall i | 0 <= i < a ensures IsWhitespace(s[..a][i]) {
        assert s[..a][i] == s[i];
      }
    }
    assert IsBlank(s[b..]) by {
      forall i | 0 <= i < |s| - b ensures IsWhitespace(s[b..][i]) {
        assert s[b..][i] == t[|r| + i];
      }
    }
    assert 0 <= a <= b <= |s| && r == s[a..b] && IsBlank(s[..a]) && IsBlank(s[b..]);
    if r != [] {
      assert r[0] == t[0];
    } else {
      assert t == [];
    }
  }

  /** Trimming a string with no surrounding whitespace leaves it as it is. */
  lemma {:induction false} TrimUnpadded(s: string)
    requires s != [] ==> !IsWhitespace(s[0]) && !IsWhitespace(s[|s| - 1])
    ensures Trim(s) == s
  {
    assert TrimStart(s) == s;
    if s != [] {
      assert TrimEnd(s) == s;
    }
  }

  /** `toLowerCase` on one character (ASCII letters; other scripts are not folded). */
  function LowerChar(c: char): (d: char)
    ensures 'A' <= c <= 'Z' ==> 'a' <= d <= 'z' && d as int - c as int == 32
    ensures !('A' <= c <= 'Z') ==> d == c
  {
    if 'A' <= c <= 'Z' then (c as int + 32) as char else c
  }

  /** `s.toLowerCase()`, character by character. */
  function Lower(s: string): (r: string)
    ensures |r| == |s|
    ensures forall i :: 0 <= i < |s| ==> r[i] == LowerChar(s[i])
  {
    seq(|s|, i requires 0 <= i < |s| => LowerChar(s[i]))
  }

  predicate StartsWith(s: string, prefix: string) {
    |prefix| <= |s| && s[..|prefix|] == prefix
  }

  /** `s.replace(/pat/g, '')`: scan left to right and drop every non-overlapping occurrence of `pat`. */
  function RemoveAll(s: string, pat: string): (r: string)
    requires pat != []
    ensures |r| <= |s|
    ensures IsSubsequence(r, s)
    decreases |s|
  {
    if s == [] then []
    else if StartsWith(s, pat) then
      var r := RemoveAll(s[|pat|..], pat);
      SubsequenceOfSuffix(r, s, |pat|);
      r
    else
      var rest := RemoveAll(s[1..], pat);
      assert ([s[0]] + rest)[1..] == rest;
      [s[0]] + rest
  }

  /** Three copies of `c` start at position `i` of `s`. */
  predicate TripleAt(s: string, c: char, i: int) {
    0 <= i && i + 3 <= |s| && s[i] == c && s[i + 1] == c && s[i + 2] == c
  }

  /**
   * For a pattern that is one character repeated three times, the left-to-right scan leaves no
   * occurrence behind: whatever it keeps never lines up into the pattern again.
   */
  lemma {:induction false} RemoveAllRunGone(s: string, c: char)
    ensures forall i :: !TripleAt(RemoveAll(s, [c, c, c]), c, i)
    decreases |s|
  {
    var pat := [c, c, c];
    var r := RemoveAll(s, pat);
    if s == [] {
    } else if StartsWith(s, pat) {
      RemoveAllRunGone(s[|pat|..], c);
    } else {
      var rest := RemoveAll(s[1..], pat);
      RemoveAllRunGone(s[1..], c);
      assert r == [s[0]] + rest;
      if s[0] == c {
        assert !StartsWith(s[1..], [c, c]);
        RemoveAllHead(s[1..], c);
      }
      forall i ensures !TripleAt(r, c, i) {
        assert TripleAt(r, c, i) && i > 0 ==> TripleAt(rest, c, i - 1);
      }
    }
  }

  /** Trimming keeps a slice of its input, so it cannot create a run of three `c`. */
  lemma TrimKeepsNoTriple(s: string, c: char)
    requires forall i :: !TripleAt(s, c, i)
    ensures forall i :: !TripleAt(Trim(s), c, i)
  {
    var r := Trim(s);
    var a, b :| 0 <= a <= b <= |s| && r == s[a..b] && IsBlank(s[..a]) && IsBlank(s[b..]);
    forall i ensures !TripleAt(r, c, i) {
      assert TripleAt(r, c, i) ==> TripleAt(s, c, a + i);
    }
  }

  /** The scan never starts its output with more copies of `c` than the input starts with, up to two. */
  lemma {:induction false} RemoveAllHead(s: string, c: char)
    ensures (s == [] || s[0] != c) ==> (RemoveAll(s, [c, c, c]) == [] || RemoveAll(s, [c, c, c])[0] != c)
    ensures !StartsWith(s, [c, c]) ==> !StartsWith(RemoveAll(s, [c, c, c]), [c, c])
    decreases |s|
  {
    var pat := [c, c, c];
    if s != [] && !StartsWith(s, pat) {
      var rest := RemoveAll(s[1..], pat);
      assert RemoveAll(s, pat) == [s[0]] + rest;
      if s[0] == c && !StartsWith(s, [c, c]) {
        assert s[1..] == [] || s[1..][0] != c;
        RemoveAllHead(s[1..], c);
      }
    }
  }

  /** A pattern that begins with a character `s` lacks can never be found in `s`. */
  lemma {:induction false} RemoveAllAbsent(s: string, pat: string)
    requires pat != [] && pat[0] !in s
    ensures RemoveAll(s, pat) == s
    decreases |s|
  {
    if s != [] {
      assert s[0] in s;
      assert forall c :: c in s[1..] ==> c in s;
      RemoveAllAbsent(s[1..], pat);
    }
  }

  /** Removing `pat` from `s + pat`, where `s` lacks `pat`'s first character, leaves `s`. */
  lemma {:induction false} RemoveAllTrailing(s: string, pat: string)
    requires pat != [] && pat[0] !in s
    ensures RemoveAll(s + pat, pat) == s
    decreases |s|
  {
    if s == [] {
      assert s + pat == pat;
      assert pat[|pat|..] == [];
    } else {
      assert (s + pat)[0] == s[0] != pat[0];
      assert (s + pat)[1..] == s[1..] + pat;
      assert forall c :: c in s[1..] ==> c in s;
      RemoveAllTrailing(s[1..], pat);
    }
  }

  function DigitChar(d: nat): (c: char)
    requires d < 10
    ensures '0' <= c <= '9'
  {
    "0123456789"[d]
  }

  /** `n.toString()` for a non-negative integer. */
  function NatToString(n: nat): (r: string)
    ensures r != []
    ensures forall i :: 0 <= i < |r| ==> '0' <= r[i] <= '9'
    ensures |r| == 1 <==> n < 10
    decreases n
  {
    if n < 10 then [DigitChar(n)] else NatToString(n / 10) + [DigitChar(n % 10)]
  }

  /** Different numbers print differently: `toString` on a non-negative integer is injective. */
  lemma {:induction false} NatToStringInjective(a: nat, b: nat)
    requires NatToString(a) == NatToString(b)
    ensures a == b
    decreases a
  {
    var s := NatToString(a);
    if a < 10 && b < 10 {
      assert s[0] == DigitChar(a) && s[0] == DigitChar(b);
    } else if a >= 10 && b >= 10 {
      assert s[|s| - 1] == DigitChar(a % 10) && s[|s| - 1] == DigitChar(b % 10);
      assert s[..|s| - 1] == NatToString(a / 10) && s[..|s| - 1] == NatToString(b / 10);
      NatToStringInjective(a / 10, b / 10);
    }
  }
}
