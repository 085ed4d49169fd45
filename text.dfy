/**
 * String helpers shared by the Python scripts and the JavaScript front end:
 * ASCII lower-casing, whitespace trimming, substring and whole-word search,
 * and decimal rendering of integers.
 */
module Text {

  function LowerChar(c: char): (r: char)
    ensures 'A' <= c <= 'Z' ==> 'a' <= r <= 'z' && r as int == c as int + 32
    ensures !('A' <= c <= 'Z') ==> r == c
  {
    if 'A' <= c <= 'Z' then (c as int + 32) as char else c
  }

  /** ASCII lower-casing: what both `str.lower()` and a case-insensitive regex do on ASCII letters. */
  function Lower(s: string): (r: string)
    ensures |r| == |s|
    ensures forall i :: 0 <= i < |s| ==> r[i] == LowerChar(s[i])
  {
    seq(|s|, i requires 0 <= i < |s| => LowerChar(s[i]))
  }

  /** The characters Python's `str.strip()` removes (`str.isspace`). */
  predicate IsPyWhitespace(c: char) {
    var n := c as int;
    (0x09 <= n <= 0x0D) || (0x1C <= n <= 0x20) || n == 0x85 || n == 0xA0 || n == 0x1680
    || (0x2000 <= n <= 0x200A) || n == 0x2028 || n == 0x2029 || n == 0x202F || n == 0x205F || n == 0x3000
  }

  /** The characters JavaScript's `String.prototype.trim()` removes. */
  predicate IsJsWhitespace(c: char) {
    var n := c as int;
    (0x09 <= n <= 0x0D) || n == 0x20 || n == 0xA0 || n == 0x1680
    || (0x2000 <= n <= 0x200A) || n == 0x2028 || n == 0x2029 || n == 0x202F || n == 0x205F
    || n == 0x3000 || n == 0xFEFF
  }

  /** The end of the run of whitespace that starts at `i`. */
  function SpaceFrom(s: string, i: nat, isSpace: char -> bool): (n: nat)
    requires i <= |s|
    ensures i <= n <= |s|
    ensures forall j :: i <= j < n ==> isSpace(s[j])
    ensures n < |s| ==> !isSpace(s[n])
    decreases |s| - i
  {
    if i < |s| && isSpace(s[i]) then SpaceFrom(s, i + 1, isSpace) else i
  }

  /** The start of the run of whitespace that ends at `hi`, not going below `lo`. */
  function SpaceBefore(s: string, lo: nat, hi: nat, isSpace: char -> bool): (n: nat)
    requires lo <= hi <= |s|
    ensures lo <= n <= hi
    ensures forall j :: n <= j < hi ==> isSpace(s[j])
    ensures lo < n ==> !isSpace(s[n - 1])
    decreases hi
  {
    if lo < hi && isSpace(s[hi - 1]) then SpaceBefore(s, lo, hi - 1, isSpace) else hi
  }

  /**
   * Removes leading and trailing whitespace: the result is the infix of `s`
   * left once every whitespace character at either end is gone.
   */
  function Strip(s: string, isSpace: char -> bool): (r: string)
    ensures r == [] || (!isSpace(r[0]) && !isSpace(r[|r| - 1]))
    ensures exists i :: StrippedAt(s, r, isSpace, i)
  {
    var i := SpaceFrom(s, 0, isSpace);
    var j := SpaceBefore(s, i, |s|, isSpace);
    assert StrippedAt(s, s[i..j], isSpace, i);
    s[i..j]
  }

  /** `r` is `s[i..]` with only whitespace of `s` before and after it. */
  predicate StrippedAt(s: string, r: string, isSpace: char -> bool, i: int) {
    0 <= i && i + |r| <= |s| && r == s[i..i + |r|]
    && (forall j :: 0 <= j < i ==> isSpace(s[j]))
    && (forall j :: i + |r| <= j < |s| ==> isSpace(s[j]))
  }

  /** The whitespace run from `i` ends at the first non-whitespace character at or after `i`. */
  lemma {:induction false} SpaceFromAt(s: string, i: nat, k: nat, isSpace: char -> bool)
    requires i <= k <= |s|
    requires forall j :: i <= j < k ==> isSpace(s[j])
    requires k == |s| || !isSpace(s[k])
    ensures SpaceFrom(s, i, isSpace) == k
    decreases k - i
  {
    if i < k {
      SpaceFromAt(s, i + 1, k, isSpace);
    }
  }

  /** The whitespace run ending at `hi` starts just after the last non-whitespace character before `hi`. */
  lemma {:induction false} SpaceBeforeAt(s: string, lo: nat, hi: nat, k: nat, isSpace: char -> bool)
    requires lo <= k <= hi <= |s|
    requires forall j :: k <= j < hi ==> isSpace(s[j])
    requires k == lo || !isSpace(s[k - 1])
    ensures SpaceBefore(s, lo, hi, isSpace) == k
    decreases hi - k
  {
    if k < hi {
      SpaceBeforeAt(s, lo, hi - 1, k, isSpace);
    }
  }

  /** Lower-casing neither makes nor unmakes whitespace. */
  lemma LowerKeepsSpace(c: char)
    ensures IsPyWhitespace(LowerChar(c)) == IsPyWhitespace(c)
  {
  }

  /** The whitespace runs of a text and of its lower-cased form end at the same places. */
  lemma {:induction false} SpaceFromLower(s: string, i: nat)
    requires i <= |s|
    ensures SpaceFrom(Lower(s), i, IsPyWhitespace) == SpaceFrom(s, i, IsPyWhitespace)
    decreases |s| - i
  {
    if i < |s| {
      LowerKeepsSpace(s[i]);
      SpaceFromLower(s, i + 1);
    }
  }

  lemma {:induction false} SpaceBeforeLower(s: string, lo: nat, hi: nat)
    requires lo <= hi <= |s|
    ensures SpaceBefore(Lower(s), lo, hi, IsPyWhitespace) == SpaceBefore(s, lo, hi, IsPyWhitespace)
    decreases hi
  {
    if lo < hi {
      LowerKeepsSpace(s[hi - 1]);
      SpaceBeforeLower(s, lo, hi - 1);
    }
  }

  /** Stripping and lower-casing commute, since lower-casing keeps whitespace as it is. */
  lemma LowerStrip(s: string)
    ensures Lower(Strip(s, IsPyWhitespace)) == Strip(Lower(s), IsPyWhitespace)
  {
    var i := SpaceFrom(s, 0, IsPyWhitespace);
    var j := SpaceBefore(s, i, |s|, IsPyWhitespace);
    SpaceFromLower(s, 0);
    SpaceBeforeLower(s, i, |s|);
    assert Strip(s, IsPyWhitespace) == s[i..j];
    assert Strip(Lower(s), IsPyWhitespace) == Lower(s)[i..j];
    LowerSlice(s, i, j);
  }

  /** Lower-casing a slice is slicing the lower-cased text. */
  lemma LowerSlice(s: string, i: nat, j: nat)
    requires i <= j <= |s|
    ensures Lower(s[i..j]) == Lower(s)[i..j]
  {
    assert forall k :: 0 <= k < j - i ==> Lower(s[i..j])[k] == LowerChar(s[i + k]) == Lower(s)[i..j][k];
  }

  /** The stripped text is the slice between the two whitespace runs. */
  lemma StripSlice(s: string, i: nat, j: nat, isSpace: char -> bool)
    requires i == SpaceFrom(s, 0, isSpace) && j == SpaceBefore(s, i, |s|, isSpace)
    ensures Strip(s, isSpace) == s[i..j]
  {
  }

  /** A slice of the second part of a concatenation. */
  lemma SliceAfter<T>(a: seq<T>, b: seq<T>, i: nat, j: nat)
    requires i <= j <= |b|
    ensures (a + b)[|a| + i..|a| + j] == b[i..j]
  {
  }

  /** A slice of the first part of a concatenation. */
  lemma SliceBefore<T>(a: seq<T>, b: seq<T>, i: nat, j: nat)
    requires i <= j <= |a|
    ensures (a + b)[i..j] == a[i..j]
  {
  }

  /** Whitespace added in front is stripped away again. */
  lemma StripLeading(pre: string, v: string, isSpace: char -> bool)
    requires forall j :: 0 <= j < |pre| ==> isSpace(pre[j])
    ensures Strip(pre + v, isSpace) == Strip(v, isSpace)
  {
    var i := SpaceFrom(v, 0, isSpace);
    var j := SpaceBefore(v, i, |v|, isSpace);
    LeadingRuns(pre, v, isSpace);
    StripSlice(pre + v, |pre| + i, |pre| + j, isSpace);
    StripSlice(v, i, j, isSpace);
    SliceAfter(pre, v, i, j);
  }

  /** Whitespace in front moves both whitespace runs of a text by its length. */
  lemma LeadingRuns(pre: string, v: string, isSpace: char -> bool)
    requires forall j :: 0 <= j < |pre| ==> isSpace(pre[j])
    ensures SpaceFrom(pre + v, 0, isSpace) == |pre| + SpaceFrom(v, 0, isSpace)
    ensures SpaceBefore(pre + v, |pre| + SpaceFrom(v, 0, isSpace), |pre + v|, isSpace)
      == |pre| + SpaceBefore(v, SpaceFrom(v, 0, isSpace), |v|, isSpace)
  {
    var u := pre + v;
    var i := SpaceFrom(v, 0, isSpace);
    var j := SpaceBefore(v, i, |v|, isSpace);
    SpaceFromAt(u, 0, |pre| + i, isSpace);
    SpaceBeforeAt(u, |pre| + i, |u|, |pre| + j, isSpace);
  }

  /** Whitespace added at the end is stripped away again. */
  lemma StripTrailing(v: string, post: string, isSpace: char -> bool)
    requires forall j :: 0 <= j < |post| ==> isSpace(post[j])
    ensures Strip(v + post, isSpace) == Strip(v, isSpace)
  {
    var u := v + post;
    var i := SpaceFrom(v, 0, isSpace);
    var j := SpaceBefore(v, i, |v|, isSpace);
    StripSlice(v, i, j, isSpace);
    if i == |v| {
      SpaceFromAt(u, 0, |u|, isSpace);
      StripSlice(u, |u|, |u|, isSpace);
    } else {
      SpaceFromAt(u, 0, i, isSpace);
      SpaceBeforeAt(u, i, |u|, j, isSpace);
      StripSlice(u, i, j, isSpace);
      SliceBefore(v, post, i, j);
    }
  }

  /** Whitespace added at either end is stripped away again. */
  lemma StripPadded(pre: string, s: string, post: string, isSpace: char -> bool)
    requires forall j :: 0 <= j < |pre| ==> isSpace(pre[j])
    requires forall j :: 0 <= j < |post| ==> isSpace(post[j])
    ensures Strip(pre + s + post, isSpace) == Strip(s, isSpace)
  {
    assert pre + s + post == pre + (s + post);
    StripLeading(pre, s + post, isSpace);
    StripTrailing(s, post, isSpace);
  }

  /** `w` occurs in `s` starting at index `i`. */
  predicate OccursAt(s: string, w: string, i: int) {
    0 <= i && i + |w| <= |s| && s[i..i + |w|] == w
  }

  /** Plain substring search. */
  predicate Contains(s: string, w: string) {
    exists i | 0 <= i <= |s| - |w| :: OccursAt(s, w, i)
  }

  /** Some string of `ws` occurs in `s` (a regex alternation of literals). */
  predicate ContainsAny(s: string, ws: seq<string>) {
    exists k | 0 <= k < |ws| :: Contains(s, ws[k])
  }

  /** A regex word character (`\w`), restricted to ASCII. */
  predicate IsWordChar(c: char) {
    ('a' <= c <= 'z') || ('A' <= c <= 'Z') || ('0' <= c <= '9') || c == '_'
  }

  /** `w` occurs at `i` with a word boundary on both sides (`\bw\b` for a word `w`). */
  predicate WordAt(s: string, w: string, i: int) {
    OccursAt(s, w, i)
    && (i == 0 || !IsWordChar(s[i - 1]))
    && (i + |w| == |s| || !IsWordChar(s[i + |w|]))
  }

  predicate ContainsWord(s: string, w: string) {
    exists i | 0 <= i <= |s| - |w| :: WordAt(s, w, i)
  }

  /** A string that does not contain one of the characters of `w` does not contain `w`. */
  lemma AbsentChar(s: string, w: string, k: nat)
    requires k < |w| && w[k] !in s
    ensures !Contains(s, w) && !ContainsWord(s, w)
  {
  }

  lemma ContainsWitness(s: string, w: string, i: int)
    requires OccursAt(s, w, i)
    ensures Contains(s, w)
  {
  }

  function DigitChar(d: nat): (c: char)
    requires d < 10
    ensures '0' <= c <= '9' && c as int - '0' as int == d
  {
    (d + '0' as int) as char
  }

  /** Decimal rendering of a natural number, as `String(n)` and `str(n)` give it. */
  function NatToString(n: nat): (s: string)
    ensures |s| >= 1
    ensures forall i :: 0 <= i < |s| ==> '0' <= s[i] <= '9'
    ensures s[0] == '0' ==> n == 0
  {
    if n < 10 then [DigitChar(n)] else NatToString(n / 10) + [DigitChar(n % 10)]
  }

  /** Decimal rendering of an integer, with a leading minus sign when negative. */
  function IntToString(n: int): (s: string)
    ensures n < 0 ==> s == "-" + NatToString(-n)
    ensures n >= 0 ==> s == NatToString(n)
  {
    if n < 0 then "-" + NatToString(-n) else NatToString(n)
  }

  /** Reads a string of decimal digits back as a number. */
  function ParseNat(s: string): nat
    requires forall i :: 0 <= i < |s| ==> '0' <= s[i] <= '9'
  {
    if s == [] then 0 else ParseNat(s[..|s| - 1]) * 10 + (s[|s| - 1] as int - '0' as int)
  }

  lemma {:induction false} ParseNatToString(n: nat)
    ensures ParseNat(NatToString(n)) == n
  {
    if n >= 10 {
      var s := NatToString(n);
      assert s[..|s| - 1] == NatToString(n / 10);
      ParseNatToString(n / 10);
    }
  }

  /** `sep.join(parts)` / `parts.join(sep)`. */
  function Join(parts: seq<string>, sep: string): string {
    if parts == [] then ""
    else if |parts| == 1 then parts[0]
    else parts[0] + sep + Join(parts[1..], sep)
  }

  /** Joining one more part appends the separator and that part. */
  lemma {:induction false} JoinSnoc(parts: seq<string>, p: string, sep: string)
    requires parts != []
    ensures Join(parts + [p], sep) == Join(parts, sep) + sep + p
  {
    if |parts| == 1 {
      assert (parts + [p])[1..] == [p];
    } else {
      assert (parts + [p])[1..] == parts[1..] + [p];
      JoinSnoc(parts[1..], p, sep);
    }
  }

  predicate StartsWith(s: string, prefix: string) {
    |prefix| <= |s| && s[..|prefix|] == prefix
  }
}
