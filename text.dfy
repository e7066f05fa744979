/**
 * String scanning shared by the pactl text parser and the JSON envelope:
 * leftmost search, line and digit-run boundaries, Go's `strings.Split` and
 * `strings.Join`, and decimal rendering and parsing.
 */
module Text {
  import opened Wrappers

  predicate IsDigit(c: char) {
    '0' <= c <= '9'
  }

  predicate AllDigits(s: string) {
    forall i :: 0 <= i < |s| ==> IsDigit(s[i])
  }

  /** `pat` occurs in `s` at index `p`. */
  predicate StartsAt(s: string, pat: string, p: nat) {
    p + |pat| <= |s| && s[p..p + |pat|] == pat
  }

  predicate Contains(s: string, pat: string) {
    exists p: nat :: p <= |s| && StartsAt(s, pat, p)
  }

  /**
   * The least position in [lo, hi) that satisfies `P`: the order in which a
   * leftmost-first regular expression engine tries start positions and lazy
   * repetitions.
   */
  function FirstWhere(lo: nat, hi: nat, P: nat -> bool): (r: Option<nat>)
    decreases hi - lo
    ensures r.Some? ==> lo <= r.value < hi && P(r.value)
    ensures r.Some? ==> forall q :: lo <= q < r.value ==> !P(q)
    ensures r.None? ==> forall q :: lo <= q < hi ==> !P(q)
  {
    if lo >= hi then None
    else if P(lo) then Some(lo)
    else FirstWhere(lo + 1, hi, P)
  }

  /** The index of the newline that ends the line holding index `i`, or `|s|`. */
  function LineEnd(s: string, i: nat): (e: nat)
    requires i <= |s|
    decreases |s| - i
    ensures i <= e <= |s|
    ensures e < |s| ==> s[e] == '\n'
    ensures forall k :: i <= k < e ==> s[k] != '\n'
  {
    if i == |s| || s[i] == '\n' then i else LineEnd(s, i + 1)
  }

  /** The end of the longest run of ASCII digits starting at `i`. */
  function DigitRunEnd(s: string, i: nat): (e: nat)
    requires i <= |s|
    decreases |s| - i
    ensures i <= e <= |s|
    ensures e < |s| ==> !IsDigit(s[e])
    ensures forall k :: i <= k < e ==> IsDigit(s[k])
  {
    if i == |s| || !IsDigit(s[i]) then i else DigitRunEnd(s, i + 1)
  }

  /** Go's `strings.Index`: the leftmost occurrence of `pat`. */
  function IndexOf(s: string, pat: string): (r: Option<nat>)
    ensures r.Some? ==> StartsAt(s, pat, r.value)
    ensures r.Some? ==> forall q: nat :: q < r.value ==> !StartsAt(s, pat, q)
    ensures r.None? <==> !Contains(s, pat)
  {
    var P := (p: nat) => StartsAt(s, pat, p);
    var r := FirstWhere(0, |s| + 1, P);
    assert forall q: nat :: P(q) == StartsAt(s, pat, q);
    r
  }

  /** An occurrence inside a prefix is an occurrence in the whole string. */
  lemma PrefixOccurrence(s: string, m: nat, pat: string, p: nat)
    requires m <= |s| && StartsAt(s[..m], pat, p)
    ensures StartsAt(s, pat, p)
  {
    assert s[..m][p..p + |pat|] == s[p..p + |pat|];
  }

  /** An occurrence inside a suffix is an occurrence in the whole string. */
  lemma SuffixOccurrence(s: string, m: nat, pat: string, p: nat)
    requires m <= |s| && StartsAt(s[m..], pat, p)
    ensures StartsAt(s, pat, m + p)
  {
    assert s[m..][p..p + |pat|] == s[m + p..m + p + |pat|];
  }

  /**
   * Go's `strings.Split(s, sep)` for a non-empty separator: the pieces between
   * the successive leftmost occurrences of `sep`; no piece contains `sep`.
   */
  function Split(s: string, sep: string): (parts: seq<string>)
    requires |sep| > 0
    decreases |s|
    ensures |parts| >= 1
    ensures forall i :: 0 <= i < |parts| ==> !Contains(parts[i], sep)
  {
    match IndexOf(s, sep)
    case None => [s]
    case Some(m) =>
      var head := s[..m];
      assert !Contains(head, sep) by {
        forall p: nat | StartsAt(head, sep, p) ensures false {
          PrefixOccurrence(s, m, sep, p);
        }
      }
      [head] + Split(s[m + |sep|..], sep)
  }

  /** Go's `strings.Join`. */
  function Join(parts: seq<string>, sep: string): string {
    if |parts| == 0 then ""
    else if |parts| == 1 then parts[0]
    else parts[0] + sep + Join(parts[1..], sep)
  }

  /** Joining the pieces of a split with the separator gives back the input. */
  lemma {:induction false} JoinSplit(s: string, sep: string)
    requires |sep| > 0
    ensures Join(Split(s, sep), sep) == s
    decreases |s|
  {
    var i := IndexOf(s, sep);
    if i.Some? {
      var m := i.value;
      var head, rest := s[..m], s[m + |sep|..];
      var tail := Split(rest, sep);
      JoinSplit(rest, sep);
      var parts := [head] + tail;
      assert Split(s, sep) == parts;
      assert parts[1..] == tail;
      assert Join(parts, sep) == head + sep + Join(tail, sep);
      assert s[m..m + |sep|] == sep;
      assert s == head + s[m..m + |sep|] + rest;
    }
  }

  /**
   * Splitting on a one-character separator undoes joining when no part holds
   * that character: `Split` and `Join` are inverse.
   */
  lemma {:induction false} SplitJoin(parts: seq<string>, sep: string)
    requires |sep| == 1 && |parts| >= 1
    requires forall i :: 0 <= i < |parts| ==> !Contains(parts[i], sep)
    ensures Split(Join(parts, sep), sep) == parts
    decreases |parts|
  {
    if |parts| == 1 {
      assert Join(parts, sep) == parts[0];
    } else {
      var head, tail := parts[0], Join(parts[1..], sep);
      var s := head + sep + tail;
      assert Join(parts, sep) == s;
      assert StartsAt(s, sep, |head|) by {
        assert s[|head|..|head| + 1] == sep;
      }
      forall q: nat | q < |head| && StartsAt(s, sep, q) ensures false {
        assert s[q..q + 1] == head[q..q + 1];
        assert StartsAt(head, sep, q);
      }
      assert IndexOf(s, sep) == Some(|head|);
      assert s[..|head|] == head;
      assert s[|head| + 1..] == tail;
      SplitJoin(parts[1..], sep);
    }
  }

  // ---- decimal numbers

  function DigitChar(d: nat): (c: char)
    requires d < 10
    ensures IsDigit(c)
  {
    ('0' as int + d) as char
  }

  function DigitValue(c: char): (d: nat)
    requires IsDigit(c)
    ensures d < 10 && DigitChar(d) == c
  {
    c as int - '0' as int
  }

  /** The value of a string of decimal digits (leading zeros allowed). */
  function DecimalValue(s: string): nat
    requires AllDigits(s)
  {
    if s == [] then 0 else 10 * DecimalValue(s[..|s| - 1]) + DigitValue(s[|s| - 1])
  }

  function Pow10(n: nat): (p: nat)
    ensures p >= 1
  {
    if n == 0 then 1 else 10 * Pow10(n - 1)
  }

  lemma {:induction false} Pow10Add(a: nat, b: nat)
    decreases b
    ensures Pow10(a + b) == Pow10(a) * Pow10(b)
  {
    if b > 0 {
      Pow10Add(a, b - 1);
    }
  }

  /** A string of `n` digits has a value below `10^n`. */
  lemma {:induction false} DecimalBelow(s: string)
    requires AllDigits(s)
    decreases |s|
    ensures DecimalValue(s) < Pow10(|s|)
  {
    if s != [] {
      DecimalBelow(s[..|s| - 1]);
    }
  }

  /** A string of `n` nines has the value `10^n - 1`. */
  lemma {:induction false} Nines(s: string)
    requires forall i :: 0 <= i < |s| ==> s[i] == '9'
    decreases |s|
    ensures AllDigits(s) && DecimalValue(s) == Pow10(|s|) - 1
  {
    if s != [] {
      Nines(s[..|s| - 1]);
    }
  }

  /** Decimal rendering of a natural number, without leading zeros. */
  function NatToString(n: nat): (s: string)
    ensures |s| >= 1 && AllDigits(s)
    ensures |s| > 1 ==> s[0] != '0'
  {
    if n < 10 then [DigitChar(n)] else NatToString(n / 10) + [DigitChar(n % 10)]
  }

  /** Decimal rendering of an integer, as Go's `strconv.Itoa` and `%d` write it. */
  function IntToString(i: int): (s: string)
    ensures |s| >= 1
  {
    if i < 0 then "-" + NatToString(-i) else NatToString(i)
  }

  /** Reading back an optionally signed decimal. */
  function ParseInt(s: string): Option<int> {
    if |s| > 1 && s[0] == '-' && AllDigits(s[1..]) then Some(-(DecimalValue(s[1..]) as int))
    else if |s| > 0 && AllDigits(s) then Some(DecimalValue(s))
    else None
  }

  lemma {:induction false} NatToStringRoundTrip(n: nat)
    ensures DecimalValue(NatToString(n)) == n
  {
    var s := NatToString(n);
    if n >= 10 {
      NatToStringRoundTrip(n / 10);
      assert s[..|s| - 1] == NatToString(n / 10);
      assert DigitValue(s[|s| - 1]) == n % 10;
    } else {
      assert DigitValue(s[0]) == n;
    }
  }

  /** `ParseInt` inverts `IntToString`. */
  lemma IntToStringRoundTrip(i: int)
    ensures ParseInt(IntToString(i)) == Some(i)
  {
    var s := IntToString(i);
    if i < 0 {
      NatToStringRoundTrip(-i);
      assert s[1..] == NatToString(-i);
    } else {
      NatToStringRoundTrip(i);
    }
  }

  /** The number of successive non-overlapping leftmost occurrences of `sep` in `s`. */
  function Occurrences(s: string, sep: string): nat
    requires |sep| > 0
    decreases |s|
  {
    match IndexOf(s, sep)
    case None => 0
    case Some(m) => 1 + Occurrences(s[m + |sep|..], sep)
  }

  /** `strings.Split` yields one more piece than there are occurrences of the separator. */
  lemma {:induction false} SplitCount(s: string, sep: string)
    requires |sep| > 0
    decreases |s|
    ensures |Split(s, sep)| == Occurrences(s, sep) + 1
  {
    if IndexOf(s, sep).Some? {
      var m := IndexOf(s, sep).value;
      SplitCount(s[m + |sep|..], sep);
    }
  }

  /** Without an occurrence of the separator, `strings.Split` returns the whole string. */
  lemma SplitWithout(s: string, sep: string)
    requires |sep| > 0 && !Contains(s, sep)
    ensures Split(s, sep) == [s]
  {
  }
}
