/** The behaviour of the Go `strings` functions the runner relies on
    (`Index`, `Split`, `SplitAfter`, `Join`, `Trim` with a one-character cutset
    and `ToLower`), over Dafny strings.  Positions are character positions. */
module GoStrings {

  /** `pat` occurs in `s` starting at position `i`. */
  predicate OccursAt(s: string, pat: string, i: nat) {
    i + |pat| <= |s| && s[i..i + |pat|] == pat
  }

  ghost predicate Contains(s: string, pat: string) {
    exists i: nat :: OccursAt(s, pat, i)
  }

  /** The first occurrence of `pat` at or after `k`, or -1. */
  function IndexFrom(s: string, pat: string, k: nat): (r: int)
    ensures r == -1 || (k <= r && OccursAt(s, pat, r))
    ensures forall j: nat :: k <= j && (r == -1 || j < r) ==> !OccursAt(s, pat, j)
    decreases |s| - k
  {
    if k + |pat| > |s| then -1
    else if s[k..k + |pat|] == pat then k
    else IndexFrom(s, pat, k + 1)
  }

  /** `strings.Index`: the position of the first occurrence of `pat`, or -1. */
  function IndexOf(s: string, pat: string): (r: int)
    ensures r == -1 <==> !Contains(s, pat)
    ensures r != -1 ==> 0 <= r && OccursAt(s, pat, r)
    ensures r != -1 ==> forall j: nat :: j < r ==> !OccursAt(s, pat, j)
  {
    IndexFrom(s, pat, 0)
  }

  lemma OccursInPrefix(s: string, pat: string, n: nat, j: nat)
    requires n <= |s| && j + |pat| <= n
    ensures OccursAt(s[..n], pat, j) <==> OccursAt(s, pat, j)
  {
    assert s[..n][j..j + |pat|] == s[j..j + |pat|];
  }

  lemma OccursInSuffix(s: string, pat: string, a: nat, j: nat)
    requires a <= |s|
    ensures OccursAt(s[a..], pat, j) <==> OccursAt(s, pat, a + j)
  {
    if j + |pat| <= |s| - a {
      assert s[a..][j..j + |pat|] == s[a + j..a + j + |pat|];
    }
  }

  lemma OccursInSlice(s: string, pat: string, a: nat, b: nat, j: nat)
    requires a <= b <= |s| && OccursAt(s[a..b], pat, j)
    ensures OccursAt(s, pat, a + j)
  {
    forall k | 0 <= k < |pat| ensures s[a + j..a + j + |pat|][k] == pat[k] {
      assert s[a..b][j..j + |pat|][k] == pat[k];
    }
    assert s[a + j..a + j + |pat|] == pat;
  }

  /** Whatever occurs in a slice occurs in the whole string. */
  lemma ContainsSlice(s: string, pat: string, a: nat, b: nat)
    requires a <= b <= |s| && Contains(s[a..b], pat)
    ensures Contains(s, pat)
  {
    var j: nat :| OccursAt(s[a..b], pat, j);
    OccursInSlice(s, pat, a, b, j);
  }

  /** A one-character pattern occurs exactly when the character does. */
  lemma ContainsChar(s: string, c: char)
    ensures Contains(s, [c]) <==> c in s
  {
    if c in s {
      var i :| 0 <= i < |s| && s[i] == c;
      assert OccursAt(s, [c], i);
    }
    if Contains(s, [c]) {
      var i: nat :| OccursAt(s, [c], i);
      assert s[i] == s[i..i + 1][0];
    }
  }

  // ---------------------------------------------------------------------------
  // Split, SplitAfter and Join

  /** `strings.Split` for a non-empty separator. */
  function Split(s: string, sep: string): (parts: seq<string>)
    requires |sep| > 0
    ensures |parts| >= 1
    decreases |s|
  {
    var i := IndexOf(s, sep);
    if i == -1 then [s] else [s[..i]] + Split(s[i + |sep|..], sep)
  }

  /** `strings.SplitAfter`: like Split, but every piece but the last keeps its separator. */
  function SplitAfter(s: string, sep: string): (parts: seq<string>)
    requires |sep| > 0
    ensures |parts| >= 1
    decreases |s|
  {
    var i := IndexOf(s, sep);
    if i == -1 then [s] else [s[..i + |sep|]] + SplitAfter(s[i + |sep|..], sep)
  }

  /** `strings.SplitN(s, sep, 2)`: cut at the first separator only. */
  function SplitFirst(s: string, sep: string): (parts: seq<string>)
    requires |sep| > 0
    ensures |parts| == 1 || |parts| == 2
    ensures |parts| == 2 <==> Contains(s, sep)
    ensures |parts| == 1 ==> parts[0] == s
    ensures |parts| == 2 ==> parts[0] + sep + parts[1] == s && !Contains(parts[0], sep)
  {
    var i := IndexOf(s, sep);
    if i == -1 then [s]
    else
      assert s == s[..i] + s[i..i + |sep|] + s[i + |sep|..];
      assert !Contains(s[..i], sep) by {
        forall j: nat ensures !OccursAt(s[..i], sep, j) {
          if j + |sep| <= i {
            OccursInPrefix(s, sep, i, j);
          }
        }
      }
      [s[..i], s[i + |sep|..]]
  }

  /** `strings.Join`. */
  function Join(parts: seq<string>, sep: string): string {
    if |parts| == 0 then ""
    else if |parts| == 1 then parts[0]
    else parts[0] + sep + Join(parts[1..], sep)
  }

  /** The pieces written one after the other (a `bytes.Buffer` filled in order). */
  function Concat(parts: seq<string>): string {
    if |parts| == 0 then "" else parts[0] + Concat(parts[1..])
  }

  lemma ConcatAppend(parts: seq<string>, last: string)
    ensures Concat(parts + [last]) == Concat(parts) + last
  {
    if |parts| > 0 {
      assert (parts + [last])[1..] == parts[1..] + [last];
      ConcatAppend(parts[1..], last);
    } else {
      assert parts + [last] == [last];
    }
  }

  /** Splitting and joining again with the same separator gives the input back. */
  lemma {:induction false} JoinSplit(s: string, sep: string)
    requires |sep| > 0
    ensures Join(Split(s, sep), sep) == s
    decreases |s|
  {
    var i := IndexOf(s, sep);
    if i != -1 {
      var rest := s[i + |sep|..];
      var parts := Split(s, sep);
      assert parts == [s[..i]] + Split(rest, sep);
      assert parts[0] == s[..i] && parts[1..] == Split(rest, sep);
      JoinSplit(rest, sep);
      assert Join(parts, sep) == s[..i] + sep + rest;
      assert s[i..i + |sep|] == sep;
      assert s == s[..i] + s[i..i + |sep|] + rest;
    }
  }

  /** The pieces of SplitAfter, written out in order, are the input. */
  lemma {:induction false} ConcatSplitAfter(s: string, sep: string)
    requires |sep| > 0
    ensures Concat(SplitAfter(s, sep)) == s
    decreases |s|
  {
    var i := IndexOf(s, sep);
    if i != -1 {
      var head, rest := s[..i + |sep|], s[i + |sep|..];
      var parts := SplitAfter(s, sep);
      assert parts == [head] + SplitAfter(rest, sep);
      assert parts[0] == head && parts[1..] == SplitAfter(rest, sep);
      ConcatSplitAfter(rest, sep);
      assert Concat(parts) == head + Concat(parts[1..]);
      assert s == head + rest;
    }
  }

  /** No piece of Split contains the separator. */
  lemma {:induction false} SplitPiecesFree(s: string, sep: string)
    requires |sep| > 0
    ensures forall k :: 0 <= k < |Split(s, sep)| ==> !Contains(Split(s, sep)[k], sep)
    decreases |s|
  {
    var i := IndexOf(s, sep);
    if i != -1 {
      var rest := s[i + |sep|..];
      SplitPiecesFree(rest, sep);
      if Contains(s[..i], sep) {
        var j: nat :| OccursAt(s[..i], sep, j);
        OccursInPrefix(s, sep, i, j);
        assert false;
      }
      assert Split(s, sep) == [s[..i]] + Split(rest, sep);
    }
  }

  /** A string without the separator is a single piece. */
  lemma SplitNoSep(s: string, sep: string)
    requires |sep| > 0 && !Contains(s, sep)
    ensures Split(s, sep) == [s]
  {
  }

  /** A character absent from every piece and from the separator is absent from the join. */
  lemma {:induction false} JoinExcludesChar(parts: seq<string>, sep: string, c: char)
    requires c !in sep
    requires forall k :: 0 <= k < |parts| ==> c !in parts[k]
    ensures c !in Join(parts, sep)
  {
    if |parts| > 1 {
      JoinExcludesChar(parts[1..], sep, c);
    }
  }

  /** Joining with a one-character separator cannot create an occurrence of a
      pattern that does not contain that character. */
  lemma {:induction false} JoinExcludesPattern(parts: seq<string>, c: char, pat: string)
    requires |pat| > 0 && c !in pat
    requires forall k :: 0 <= k < |parts| ==> !Contains(parts[k], pat)
    ensures !Contains(Join(parts, [c]), pat)
  {
    if |parts| == 0 {
      assert forall i: nat :: !OccursAt("", pat, i);
    } else if |parts| > 1 {
      var p, rest := parts[0], Join(parts[1..], [c]);
      JoinExcludesPattern(parts[1..], c, pat);
      var s := p + [c] + rest;
      assert Join(parts, [c]) == s;
      forall i: nat ensures !OccursAt(s, pat, i) {
        if i + |pat| <= |p| {
          assert s[..|p|] == p;
          assert !OccursAt(p, pat, i);
          OccursInPrefix(s, pat, |p|, i);
        } else if i <= |p| {
          if i + |pat| <= |s| {
            assert s[i..i + |pat|][|p| - i] == c;
            assert pat[|p| - i] != c;
          }
        } else {
          assert s[|p| + 1..] == rest;
          assert !OccursAt(rest, pat, i - |p| - 1);
          OccursInSuffix(s, pat, |p| + 1, i - |p| - 1);
        }
      }
    }
  }

  // ---------------------------------------------------------------------------
  // Trim with a one-character cutset

  /** How many leading characters equal `c`. */
  function CountLeading(s: string, c: char): (n: nat)
    ensures n <= |s|
    ensures forall i :: 0 <= i < n ==> s[i] == c
    ensures n < |s| ==> s[n] != c
  {
    if |s| > 0 && s[0] == c then 1 + CountLeading(s[1..], c) else 0
  }

  /** How many trailing characters equal `c`. */
  function CountTrailing(s: string, c: char): (n: nat)
    ensures n <= |s|
    ensures forall i :: |s| - n <= i < |s| ==> s[i] == c
    ensures n < |s| ==> s[|s| - 1 - n] != c
  {
    if |s| > 0 && s[|s| - 1] == c then 1 + CountTrailing(s[..|s| - 1], c) else 0
  }

  function TrimStart(s: string, c: char): nat {
    CountLeading(s, c)
  }

  function TrimEnd(s: string, c: char): (b: nat)
    ensures TrimStart(s, c) <= b <= |s|
  {
    |s| - CountTrailing(s[TrimStart(s, c)..], c)
  }

  /** `strings.Trim(s, string(c))`. */
  function Trim(s: string, c: char): (r: string)
    ensures r == s[TrimStart(s, c)..TrimEnd(s, c)]
    ensures r == "" || (r[0] != c && r[|r| - 1] != c)
  {
    var t := s[TrimStart(s, c)..];
    t[..|t| - CountTrailing(t, c)]
  }

  /** A string that neither starts nor ends with `c` is left alone by Trim. */
  lemma TrimUnchanged(s: string, c: char)
    requires s == "" || (s[0] != c && s[|s| - 1] != c)
    ensures Trim(s, c) == s
  {
  }

  /** Trim only removes characters: nothing new can appear in its result. */
  lemma TrimContains(s: string, c: char, pat: string)
    requires Contains(Trim(s, c), pat)
    ensures Contains(s, pat)
  {
    ContainsSlice(s, pat, TrimStart(s, c), TrimEnd(s, c));
  }

  // ---------------------------------------------------------------------------
  // Case mapping and decimal rendering

  /** `unicode.ToLower` on the letters whose lower case is ASCII: 'A' to 'Z',
      U+0130 (capital I with dot above, lowered to 'i') and U+212A (Kelvin
      sign, lowered to 'k').  Other characters are kept as they are. */
  function LowerChar(c: char): (l: char)
    ensures 'A' <= c <= 'Z' ==> l as int == c as int + 32
    ensures c == '\U{0130}' ==> l == 'i'
    ensures c == '\U{212A}' ==> l == 'k'
    ensures !('A' <= c <= 'Z') && c != '\U{0130}' && c != '\U{212A}' ==> l == c
    ensures l as int < 128 <==> c as int < 128 || c == '\U{0130}' || c == '\U{212A}'
  {
    if 'A' <= c <= 'Z' then (c as int + 32) as char
    else if c == '\U{0130}' then 'i'
    else if c == '\U{212A}' then 'k'
    else c
  }

  /** `strings.ToLower`, letter by letter. */
  function ToLower(s: string): (r: string)
    ensures |r| == |s| && forall i :: 0 <= i < |s| ==> r[i] == LowerChar(s[i])
  {
    seq(|s|, i requires 0 <= i < |s| => LowerChar(s[i]))
  }

  function DigitChar(d: nat): (c: char)
    requires d < 10
    ensures '0' <= c <= '9'
  {
    ('0' as int + d) as char
  }

  /** `%d` for a non-negative number. */
  function DecimalString(n: nat): (r: string)
    ensures |r| > 0 && forall i :: 0 <= i < |r| ==> '0' <= r[i] <= '9'
  {
    if n < 10 then [DigitChar(n)] else DecimalString(n / 10) + [DigitChar(n % 10)]
  }
}
