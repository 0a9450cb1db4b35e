/**
 * The few JavaScript string operations the core relies on, with the semantics
 * of `String.prototype.indexOf`, `includes`, `startsWith`, `split` and of
 * the conversion of an integer number to its decimal text.
 */
module JsText {
  import opened Common

  /** `pat` occurs in `s` starting at index `i`. */
  predicate OccursAt(s: string, pat: string, i: nat)
  {
    i + |pat| <= |s| && s[i..i + |pat|] == pat
  }

  /** `s.indexOf(pat, from)`: the first index at or after `from` where `pat` occurs. */
  function IndexOfFrom(s: string, pat: string, from: nat): (r: Option<nat>)
    ensures r.Some? ==> from <= r.value && OccursAt(s, pat, r.value)
    ensures r.Some? ==> forall j :: from <= j < r.value ==> !OccursAt(s, pat, j)
    ensures r.None? ==> forall j :: from <= j ==> !OccursAt(s, pat, j)
    decreases |s| - from
  {
    if from + |pat| > |s| then None
    else if s[from..from + |pat|] == pat then Some(from)
    else IndexOfFrom(s, pat, from + 1)
  }

  /** `s.indexOf(pat)`, with -1 written as `None`. */
  function IndexOf(s: string, pat: string): Option<nat>
  {
    IndexOfFrom(s, pat, 0)
  }

  /** `s.includes(pat)`. */
  predicate Includes(s: string, pat: string)
  {
    IndexOf(s, pat).Some?
  }

  /** `s.startsWith(pat)`. */
  predicate StartsWith(s: string, pat: string)
  {
    pat <= s
  }

  /** `includes` holds exactly when some occurrence exists. */
  lemma IncludesIff(s: string, pat: string)
    ensures Includes(s, pat) <==> exists i: nat :: OccursAt(s, pat, i)
  {
    if Includes(s, pat) {
      assert OccursAt(s, pat, IndexOf(s, pat).value);
    }
  }

  /** An occurrence with none before it is the one `indexOf` finds. */
  lemma FirstOccurrence(s: string, pat: string, i: nat)
    requires OccursAt(s, pat, i)
    requires forall j :: 0 <= j < i ==> !OccursAt(s, pat, j)
    ensures IndexOf(s, pat) == Some(i)
  {
  }

  /** A string that lacks one of `pat`'s characters does not include `pat`. */
  lemma MissingCharExcludes(s: string, pat: string, k: nat)
    requires k < |pat|
    requires forall i :: 0 <= i < |s| ==> s[i] != pat[k]
    ensures !Includes(s, pat)
  {
    forall i: nat | i + |pat| <= |s|
      ensures !OccursAt(s, pat, i)
    {
      assert s[i..i + |pat|][k] == s[i + k];
    }
    IncludesIff(s, pat);
  }

  /** `s.split(sep)[0]`: everything before the first separator, or all of `s`. */
  function SplitHead(s: string, sep: string): (r: string)
    requires |sep| > 0
    ensures r <= s
    ensures !Includes(r, sep)
  {
    match IndexOf(s, sep)
    case None => s
    case Some(i) =>
      assert forall j :: 0 <= j < i ==> !OccursAt(s, sep, j);
      NoOccurrenceInPrefix(s, sep, i);
      s[..i]
  }

  /** `s.split(sep)[1]`: the piece between the first and the second separator,
      `None` (JavaScript's `undefined`) when `s` holds no separator. */
  function SplitSecond(s: string, sep: string): (r: Option<string>)
    requires |sep| > 0
    ensures r.None? <==> !Includes(s, sep)
    ensures r.Some? ==> !Includes(r.value, sep)
  {
    match IndexOf(s, sep)
    case None => None
    case Some(i) => Some(SplitHead(s[i + |sep|..], sep))
  }

  /** No occurrence of `sep` lies within a prefix shorter than the first one. */
  lemma NoOccurrenceInPrefix(s: string, sep: string, i: nat)
    requires |sep| > 0 && i <= |s|
    requires forall j :: 0 <= j < i ==> !OccursAt(s, sep, j)
    ensures !Includes(s[..i], sep)
  {
    forall k: nat | k + |sep| <= i
      ensures !OccursAt(s[..i], sep, k)
    {
      assert k < i && !OccursAt(s, sep, k);
      assert s[..i][k..k + |sep|] == s[k..k + |sep|];
    }
    IncludesIff(s[..i], sep);
  }

  /** An occurrence of `pat` at `i` puts `pat[m]` at `i + m`. */
  lemma OccursAtChar(s: string, pat: string, i: nat, m: nat)
    requires m < |pat|
    ensures OccursAt(s, pat, i) ==> i + m < |s| && s[i + m] == pat[m]
  {
    if OccursAt(s, pat, i) {
      assert s[i..i + |pat|][m] == s[i + m];
    }
  }

  /** A string occurs at the start of any extension of it. */
  lemma OccursAtStart(a: string, b: string)
    ensures OccursAt(a + b, a, 0)
  {
    assert (a + b)[0..|a|] == a;
  }

  /** Prepending text moves every occurrence right by the length of what was prepended. */
  lemma OccursShift(a: string, b: string, pat: string, i: nat)
    requires OccursAt(b, pat, i)
    ensures OccursAt(a + b, pat, |a| + i)
  {
    assert (a + b)[|a| + i..|a| + i + |pat|] == b[i..i + |pat|];
  }

  /** Appending text leaves every occurrence that lies inside the original string as it was. */
  lemma OccursInExtension(p: string, rest: string, pat: string, i: nat)
    requires i + |pat| <= |p|
    ensures OccursAt(p + rest, pat, i) == OccursAt(p, pat, i)
  {
    assert (p + rest)[i..i + |pat|] == p[i..i + |pat|];
  }

  /** A prefix of a string without `pat` has no `pat` either. */
  lemma PrefixExcludes(s: string, p: string, pat: string)
    requires p <= s && !Includes(s, pat)
    ensures !Includes(p, pat)
  {
    IncludesIff(s, pat);
    IncludesIff(p, pat);
    forall i: nat | OccursAt(p, pat, i)
      ensures OccursAt(s, pat, i)
    {
      assert s[i..i + |pat|] == p[i..i + |pat|];
    }
  }

  /** `split(sep)[0]` is `s[..n]` when `sep` first occurs at `n`, or never occurs and `n` is the length. */
  lemma SplitHeadAt(s: string, sep: string, n: nat)
    requires |sep| > 0 && n <= |s|
    requires forall j :: 0 <= j < n ==> !OccursAt(s, sep, j)
    requires n == |s| || OccursAt(s, sep, n)
    ensures SplitHead(s, sep) == s[..n]
  {
    if n < |s| {
      FirstOccurrence(s, sep, n);
    } else {
      match IndexOf(s, sep)
      case None =>
      case Some(i) =>
        assert i < n;
    }
  }

  /** `split(sep)[0]` keeps at least the first `n` characters when `sep` does not start before `n`. */
  lemma SplitHeadKeeps(s: string, sep: string, n: nat)
    requires |sep| > 0 && n <= |s|
    requires forall j :: 0 <= j < n ==> !OccursAt(s, sep, j)
    ensures n <= |SplitHead(s, sep)| && SplitHead(s, sep)[..n] == s[..n]
  {
    match IndexOf(s, sep)
    case None =>
    case Some(i) =>
      assert n <= i;
  }

  /** A first occurrence at a known position decides `split(sep)[1]`. */
  lemma SplitSecondAt(s: string, sep: string, i: nat)
    requires |sep| > 0
    requires OccursAt(s, sep, i)
    requires forall j :: 0 <= j < i ==> !OccursAt(s, sep, j)
    ensures SplitSecond(s, sep) == Some(SplitHead(s[i + |sep|..], sep))
  {
    FirstOccurrence(s, sep, i);
  }

  /** An occurrence in a suffix is an occurrence in the whole string, shifted by where the suffix starts. */
  lemma SuffixOccurs(s: string, k: nat, pat: string, j: nat)
    requires k <= |s|
    ensures OccursAt(s[k..], pat, j) == OccursAt(s, pat, k + j)
  {
    if k + j + |pat| <= |s| {
      assert s[k..][j..j + |pat|] == s[k + j..k + j + |pat|];
    }
  }

  /** An occurrence of `pat` inside an occurrence of `mid` is an occurrence of `pat` in `s`. */
  lemma OccursWithin(s: string, mid: string, pat: string, i: nat, k: nat)
    requires OccursAt(s, mid, i) && OccursAt(mid, pat, k)
    ensures OccursAt(s, pat, i + k)
  {
    forall t | 0 <= t < |pat|
      ensures s[i + k + t] == pat[t]
    {
      assert pat[t] == mid[k..k + |pat|][t] == mid[k + t];
      assert mid[k + t] == s[i..i + |mid|][k + t];
    }
    assert s[i + k..i + k + |pat|] == pat;
  }

  /** The first index at or after `k` where `s` ends, `sep` occurs, or the character `stop` stands. */
  function CutEnd(s: string, sep: string, stop: char, k: nat): (e: nat)
    requires k <= |s|
    ensures k <= e <= |s|
    ensures forall j :: k <= j < e ==> !OccursAt(s, sep, j) && s[j] != stop
    ensures e == |s| || OccursAt(s, sep, e) || s[e] == stop
    decreases |s| - k
  {
    if k == |s| || OccursAt(s, sep, k) || s[k] == stop then k else CutEnd(s, sep, stop, k + 1)
  }

  /** `a.split(sep)[0].split(stop)[0]` is `a[..n]` when `n` is the first place where `a` ends, `sep` occurs or `stop` stands. */
  lemma HeadThenHead(a: string, sep: string, stop: char, n: nat)
    requires |sep| > 0 && n <= |a|
    requires forall j :: 0 <= j < n ==> !OccursAt(a, sep, j) && a[j] != stop
    requires n == |a| || OccursAt(a, sep, n) || a[n] == stop
    ensures SplitHead(SplitHead(a, sep), [stop]) == a[..n]
  {
    SplitHeadKeeps(a, sep, n);
    var h := SplitHead(a, sep);
    forall j: nat | j < n
      ensures !OccursAt(h, [stop], j)
    {
      OccursAtChar(h, [stop], j, 0);
      assert h[j] == h[..n][j] == a[j];
    }
    if n == |a| {
      assert |h| == n;
    } else if OccursAt(a, sep, n) {
      SplitHeadAt(a, sep, n);
    } else if n < |h| {
      assert h[n] == a[n] == stop;
      assert h[n..n + 1] == [stop];
    }
    SplitHeadAt(h, [stop], n);
  }

  /**
   * `s.slice(k).split(sep)[0].split(stop)[0]`: the text from `k` up to the
   * next `sep`, the next `stop`, or the end.
   */
  lemma SuffixHeadThenHead(s: string, sep: string, stop: char, k: nat)
    requires |sep| > 0 && k <= |s|
    ensures SplitHead(SplitHead(s[k..], sep), [stop]) == s[k..CutEnd(s, sep, stop, k)]
  {
    var a := s[k..];
    var e := CutEnd(s, sep, stop, k);
    forall j | 0 <= j < e - k
      ensures !OccursAt(a, sep, j) && a[j] != stop
    {
      SuffixOccurs(s, k, sep, j);
      assert a[j] == s[k + j];
    }
    if e < |s| {
      SuffixOccurs(s, k, sep, e - k);
      assert a[e - k] == s[e];
    }
    HeadThenHead(a, sep, stop, e - k);
    assert a[..e - k] == s[k..e];
  }

  /** The value 0..9 of a decimal digit character. */
  function DigitValue(c: char): (d: nat)
    requires '0' <= c <= '9'
    ensures d < 10
  {
    c as int - '0' as int
  }

  /** The number a string of decimal digits denotes, read left to right. */
  function DigitsValue(r: string): nat
    requires forall i :: 0 <= i < |r| ==> '0' <= r[i] <= '9'
  {
    if r == [] then 0 else DigitsValue(r[..|r| - 1]) * 10 + DigitValue(r[|r| - 1])
  }

  /** The character of a decimal digit 0..9. */
  function DigitChar(d: nat): (c: char)
    requires d < 10
    ensures '0' <= c <= '9' && DigitValue(c) == d
  {
    (d + '0' as int) as char
  }

  /** `String(n)` for a non-negative integer: its decimal digits, no leading zero. */
  function NatToString(n: nat): (r: string)
    ensures |r| > 0
    ensures forall i :: 0 <= i < |r| ==> '0' <= r[i] <= '9'
    ensures DigitsValue(r) == n
    ensures r[0] == '0' <==> n == 0
    ensures |r| == 1 <==> n < 10
  {
    if n < 10 then [DigitChar(n)]
    else
      var r := NatToString(n / 10) + [DigitChar(n % 10)];
      assert r[..|r| - 1] == NatToString(n / 10);
      r
  }

  /** `String(n)` for an integer number: a minus sign before the digits of a negative one. */
  function IntToString(n: int): (r: string)
    ensures |r| > 0
    ensures r[0] == '-' <==> n < 0
    ensures var digits := if n < 0 then r[1..] else r;
      (forall i :: 0 <= i < |digits| ==> '0' <= digits[i] <= '9') && DigitsValue(digits) == if n < 0 then -n else n
  {
    if n < 0 then "-" + NatToString(-n) else NatToString(n)
  }
}
