/**
 * The parts of Go's `strings` and `fmt` packages and integer types that the GitLab client
 * uses, over strings of Unicode scalar values.
 */
module GoStrings {

  /** Go's `int64` and `uint64`. */
  type int64 = x: int | -0x8000_0000_0000_0000 <= x < 0x8000_0000_0000_0000
  type uint64 = x: int | 0 <= x < 0x1_0000_0000_0000_0000

  /** The separator-joined concatenation of `parts`; the inverse of `Split`. */
  function Join(parts: seq<string>, sep: char): string
    requires |parts| >= 1
  {
    if |parts| == 1 then parts[0] else parts[0] + [sep] + Join(parts[1..], sep)
  }

  /**
   * `strings.Split(s, sep)` for a one-character separator: the pieces between
   * separators, in order; the empty string splits into one empty piece.
   */
  function Split(s: string, sep: char): (parts: seq<string>)
    ensures |parts| >= 1
    ensures forall i | 0 <= i < |parts| :: sep !in parts[i]
    ensures Join(parts, sep) == s
    decreases |s|
  {
    if s == [] then [[]]
    else
      var rest := Split(s[1..], sep);
      if s[0] == sep then
        assert Join([[]] + rest, sep) == [sep] + Join(rest, sep) by {
          assert ([[]] + rest)[1..] == rest;
        }
        assert s == [s[0]] + s[1..];
        [[]] + rest
      else
        var parts := [[s[0]] + rest[0]] + rest[1..];
        assert parts[1..] == rest[1..];
        assert s == [s[0]] + s[1..];
        assert Join(parts, sep) == s by {
          if |rest| > 1 {
            assert Join(rest, sep) == rest[0] + [sep] + Join(rest[1..], sep);
          }
        }
        parts
  }

  /** A piece without the separator splits into itself. */
  lemma {:induction false} SplitWithoutSeparator(p: string, sep: char)
    requires sep !in p
    ensures Split(p, sep) == [p]
    decreases |p|
  {
    if p != [] {
      SplitWithoutSeparator(p[1..], sep);
      assert [p[0]] + p[1..] == p;
    }
  }

  /** Splitting `p + sep + t` yields `p` followed by the pieces of `t`. */
  lemma {:induction false} SplitAfterPiece(p: string, sep: char, t: string)
    requires sep !in p
    ensures Split(p + [sep] + t, sep) == [p] + Split(t, sep)
    decreases |p|
  {
    var s := p + [sep] + t;
    if p == [] {
      assert s[1..] == t;
    } else {
      assert s[1..] == p[1..] + [sep] + t;
      SplitAfterPiece(p[1..], sep, t);
      assert [p[0]] + p[1..] == p;
    }
  }

  /** `Split` inverts `Join` on separator-free pieces. */
  lemma {:induction false} SplitJoin(parts: seq<string>, sep: char)
    requires |parts| >= 1
    requires forall i | 0 <= i < |parts| :: sep !in parts[i]
    ensures Split(Join(parts, sep), sep) == parts
    decreases |parts|
  {
    if |parts| == 1 {
      SplitWithoutSeparator(parts[0], sep);
    } else {
      SplitAfterPiece(parts[0], sep, Join(parts[1..], sep));
      SplitJoin(parts[1..], sep);
      assert [parts[0]] + parts[1..] == parts;
    }
  }

  /** `s` with every leading character satisfying `cut` removed. */
  function TrimLeft(s: string, cut: char -> bool): (r: string)
    ensures |r| <= |s| && r == s[|s| - |r|..]
    ensures r != [] ==> !cut(r[0])
    ensures forall i | 0 <= i < |s| - |r| :: cut(s[i])
    decreases |s|
  {
    if s != [] && cut(s[0]) then TrimLeft(s[1..], cut) else s
  }

  /** `s` with every trailing character satisfying `cut` removed. */
  function TrimRight(s: string, cut: char -> bool): (r: string)
    ensures |r| <= |s| && r == s[..|r|]
    ensures r != [] ==> !cut(r[|r| - 1])
    ensures forall i | |r| <= i < |s| :: cut(s[i])
    decreases |s|
  {
    if s != [] && cut(s[|s| - 1]) then TrimRight(s[..|s| - 1], cut) else s
  }

  /** A trailing cut character makes no difference to the right trim. */
  lemma TrimRightOfCut(s: string, c: char, cut: char -> bool)
    requires cut(c)
    ensures TrimRight(s + [c], cut) == TrimRight(s, cut)
  {
    assert (s + [c])[..|s|] == s;
  }

  /** `r` is the part of `s` from index `i` on, with only `cut` characters before and after it. */
  predicate CutAt(s: string, r: string, i: nat, cut: char -> bool)
    requires i + |r| <= |s|
  {
    && s[i..i + |r|] == r
    && (forall k | 0 <= k < i :: cut(s[k]))
    && (forall k | i + |r| <= k < |s| :: cut(s[k]))
  }

  /** `r` is a contiguous part of `s`, and everything around it is a `cut` character. */
  ghost predicate CutFromEnds(s: string, r: string, cut: char -> bool) {
    exists i: nat | i + |r| <= |s| :: CutAt(s, r, i, cut)
  }

  /**
   * `strings.Trim(s, cutset)` (and, with `IsSpace`, `strings.TrimSpace`):
   * a contiguous part of `s` that neither starts nor ends with a character of
   * the cutset, obtained by removing only cutset characters.
   */
  function Trim(s: string, cut: char -> bool): (r: string)
    ensures r != [] ==> !cut(r[0]) && !cut(r[|r| - 1])
    ensures CutFromEnds(s, r, cut)
    ensures forall c | c in r :: c in s
  {
    var l := TrimLeft(s, cut);
    var r := TrimRight(l, cut);
    CutOfCut(s, l, r, cut);
    PartChars(s, r, |s| - |l|);
    r
  }

  /** A cut at the back of a cut at the front is a cut of the whole. */
  lemma CutOfCut(s: string, l: string, r: string, cut: char -> bool)
    requires |l| <= |s| && l == s[|s| - |l|..] && forall k | 0 <= k < |s| - |l| :: cut(s[k])
    requires |r| <= |l| && r == l[..|r|] && forall k | |r| <= k < |l| :: cut(l[k])
    ensures CutAt(s, r, |s| - |l|, cut)
  {
    var i := |s| - |l|;
    assert s[i..i + |r|] == r;
    forall k | i + |r| <= k < |s|
      ensures cut(s[k])
    {
      assert s[k] == l[k - i];
    }
  }

  /** Every character of a part of `s` occurs in `s`. */
  lemma PartChars(s: string, r: string, i: nat)
    requires i + |r| <= |s| && s[i..i + |r|] == r
    ensures forall c | c in r :: c in s
  {
    forall c | c in r
      ensures c in s
    {
      var j :| 0 <= j < |r| && r[j] == c;
      assert s[i + j] == c;
    }
  }

  /** A string that neither starts nor ends with a cutset character is its own trim. */
  lemma TrimUnchanged(s: string, cut: char -> bool)
    requires s != [] ==> !cut(s[0]) && !cut(s[|s| - 1])
    ensures Trim(s, cut) == s
  {
  }

  /** Leading and trailing cutset characters do not survive the trim. */
  lemma TrimDropsEnds(c: char, s: string, d: char, cut: char -> bool)
    requires cut(c) && cut(d)
    ensures Trim([c] + s + [d], cut) == Trim(s, cut)
  {
    var t := [c] + s + [d];
    assert t[1..] == s + [d];
    assert TrimLeft(t, cut) == TrimLeft(s + [d], cut);
    TrimLeftOfAppended(s, d, cut);
    var l := TrimLeft(s, cut);
    if l == [] {
      assert [d][1..] == [];
      assert TrimLeft(t, cut) == [];
    } else {
      assert TrimLeft(t, cut) == l + [d];
      TrimRightOfCut(l, d, cut);
    }
  }

  /** Appending a character does not change where the left trim stops, unless all of `s` is cut. */
  lemma {:induction false} TrimLeftOfAppended(s: string, d: char, cut: char -> bool)
    ensures TrimLeft(s + [d], cut)
         == if TrimLeft(s, cut) == [] then TrimLeft([d], cut) else TrimLeft(s, cut) + [d]
    decreases |s|
  {
    if s == [] {
      assert s + [d] == [d];
    } else {
      assert (s + [d])[0] == s[0];
      if cut(s[0]) {
        assert (s + [d])[1..] == s[1..] + [d];
        TrimLeftOfAppended(s[1..], d, cut);
      }
    }
  }

  /**
   * `unicode.IsSpace`, which `strings.TrimSpace` uses: the ASCII white space
   * characters, NEL, NBSP and the Unicode `White_Space` characters above Latin-1.
   */
  predicate IsSpace(c: char) {
    c == '\t' || c == '\n' || c == '\U{000B}' || c == '\U{000C}' || c == '\r' || c == ' '
    || c == '\U{0085}' || c == '\U{00A0}' || c == '\U{1680}'
    || ('\U{2000}' <= c <= '\U{200A}')
    || c == '\U{2028}' || c == '\U{2029}' || c == '\U{202F}' || c == '\U{205F}' || c == '\U{3000}'
  }

  /** `strings.TrimSpace`. */
  function TrimSpace(s: string): (r: string)
    ensures r != [] ==> !IsSpace(r[0]) && !IsSpace(r[|r| - 1])
    ensures CutFromEnds(s, r, IsSpace)
    ensures forall c | c in r :: c in s
  {
    Trim(s, IsSpace)
  }

  predicate HasPrefix(s: string, prefix: string) {
    |prefix| <= |s| && s[..|prefix|] == prefix
  }

  predicate HasSuffix(s: string, suffix: string) {
    |suffix| <= |s| && s[|s| - |suffix|..] == suffix
  }

  /** `strings.TrimPrefix`: removes `prefix` once, when `s` starts with it. */
  function TrimPrefix(s: string, prefix: string): (r: string)
    ensures HasPrefix(s, prefix) ==> prefix + r == s
    ensures !HasPrefix(s, prefix) ==> r == s
  {
    if HasPrefix(s, prefix) then s[|prefix|..] else s
  }

  /** `strings.TrimSuffix`: removes `suffix` once, when `s` ends with it. */
  function TrimSuffix(s: string, suffix: string): (r: string)
    ensures HasSuffix(s, suffix) ==> r + suffix == s
    ensures !HasSuffix(s, suffix) ==> r == s
  {
    if HasSuffix(s, suffix) then s[..|s| - |suffix|] else s
  }

  function DigitChar(d: nat): (c: char)
    requires d < 10
    ensures '0' <= c <= '9'
  {
    "0123456789"[d]
  }

  /** The decimal digits of `n`, most significant first, with no leading zero. */
  function NatToDecimal(n: nat): (s: string)
    ensures s != []
    ensures forall i | 0 <= i < |s| :: '0' <= s[i] <= '9'
    ensures s[0] == '0' ==> n == 0
    decreases n
  {
    if n < 10 then [DigitChar(n)] else NatToDecimal(n / 10) + [DigitChar(n % 10)]
  }

  /** The number a string of decimal digits denotes. */
  function DecimalValue(s: string): nat
    requires forall i | 0 <= i < |s| :: '0' <= s[i] <= '9'
  {
    if s == [] then 0 else 10 * DecimalValue(s[..|s| - 1]) + (s[|s| - 1] as int - '0' as int)
  }

  /** Reading back the digits `NatToDecimal` writes gives the number again. */
  lemma {:induction false} DecimalRoundTrip(n: nat)
    ensures DecimalValue(NatToDecimal(n)) == n
    decreases n
  {
    var s := NatToDecimal(n);
    if n >= 10 {
      DecimalRoundTrip(n / 10);
      assert s[..|s| - 1] == NatToDecimal(n / 10);
    }
  }

  /**
   * `fmt`'s `%d` verb for a signed integer: a minus sign before the digits of
   * a negative number; the digits denote the magnitude, without a leading zero.
   */
  function IntToDecimal(n: int): (s: string)
    ensures s != [] && '/' !in s
    ensures (s[0] == '-') == (n < 0)
    ensures var digits := if n < 0 then s[1..] else s;
      && digits != []
      && (forall i | 0 <= i < |digits| :: '0' <= digits[i] <= '9')
      && DecimalValue(digits) == (if n < 0 then -n else n)
      && (digits[0] == '0' ==> n == 0)
  {
    var m := if n < 0 then -n else n;
    DecimalRoundTrip(m);
    var digits := NatToDecimal(m);
    if n < 0 then
      var s := "-" + digits;
      assert s[1..] == digits;
      s
    else digits
  }
}
