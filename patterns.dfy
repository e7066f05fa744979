/**
 * The regular expressions of api/pactl/pactl.go as line-based extractors.
 *
 * Every pattern used there is a sequence of parts, each a literal label
 * followed by a capture group, separated by lazy `[\s\S]*?` gaps:
 *
 *   `Sink #(\d+)`, `Name: (.+)`, `Volume: .+?(\d+)%`, `Mute: (yes|no)`, ...
 *   `Sink Input #(\d+)[\s\S]*?Sink: (\d+)[\s\S]*?Mute: (yes|no)[\s\S]*?Volume:.*?(\d+)%[\s\S]*?application\.name = "(.*?)"`
 *
 * Go's engine is leftmost-first: it takes the first start position from which
 * the whole pattern matches, and each lazy gap takes the first position from
 * which the rest still matches. `MatchFrom` is exactly that search. Inside one
 * part the choice is fixed: `\d+` takes the whole digit run (what follows is a
 * gap before a non-digit literal, or `%`, so a shorter run never lets more
 * match), `.+` takes the rest of the line (`.` does not match a newline), and
 * `.*?(\d+)%` and `(.*?)"` take the first `%`-terminated digit run and the first
 * quote on the line (an earlier end only leaves more text for the next gap).
 */
module PactlPatterns {
  import opened Wrappers
  import opened Text

  /** One literal label and the capture group that follows it. */
  datatype PartKind =
    | Number(marker: string)             // label(\d+)
    | RestOfLine(marker: string)         // label(.+)
    | Percent(marker: string, gap: nat)  // label then `.+?` (gap 1) or `.*?` (gap 0), then (\d+)%
    | MuteWord                          // Mute: (yes|no)
    | Quoted(marker: string)             // label(.*?)"

  /** Where a part matched: its first index, its capture group, and the index just after it. */
  datatype Part = Part(at: nat, capture: string, next: nat)

  function Label(k: PartKind): string {
    match k
    case Number(l) => l
    case RestOfLine(l) => l
    case Percent(l, _) => l
    case MuteWord => "Mute: "
    case Quoted(l) => l
  }

  /** A digit run starting at `q` that ends right before a `%`. */
  predicate PercentAt(s: string, q: nat) {
    q < |s| && IsDigit(s[q]) && DigitRunEnd(s, q) < |s| && s[DigitRunEnd(s, q)] == '%'
  }

  /** `.{gap,}?(\d+)%` from `i`: the first `%`-terminated digit run on `i`'s line, at least `gap` characters on. */
  function PercentOnLine(s: string, i: nat, gap: nat): (r: Option<nat>)
    requires i <= |s|
    ensures r.Some? ==> i + gap <= r.value < LineEnd(s, i) && PercentAt(s, r.value)
    ensures r.Some? ==> forall q :: i + gap <= q < r.value ==> !PercentAt(s, q)
    ensures r.None? ==> forall q :: i + gap <= q < LineEnd(s, i) ==> !PercentAt(s, q)
  {
    var P := (q: nat) => PercentAt(s, q);
    var r := FirstWhere(i + gap, LineEnd(s, i), P);
    assert forall q: nat :: P(q) == PercentAt(s, q);
    r
  }

  /** `(.*?)"` from `i`: the first quote on `i`'s line. */
  function QuoteOnLine(s: string, i: nat): (r: Option<nat>)
    requires i <= |s|
    ensures r.Some? ==> i <= r.value < LineEnd(s, i) && s[r.value] == '"'
    ensures r.Some? ==> forall q :: i <= q < r.value ==> s[q] != '"'
    ensures r.None? ==> forall q :: i <= q < LineEnd(s, i) ==> s[q] != '"'
  {
    var P := (q: nat) => q < |s| && s[q] == '"';
    var r := FirstWhere(i, LineEnd(s, i), P);
    assert forall q: nat :: q < |s| ==> P(q) == (s[q] == '"');
    r
  }

  /** `marker(\d+)` with the marker at `z`: the whole digit run after it. */
  function NumberAt(s: string, marker: string, z: nat): (r: Option<Part>)
    ensures r.Some? <==> StartsAt(s, marker, z) && z + |marker| < |s| && IsDigit(s[z + |marker|])
    ensures r.Some? ==>
      var c := r.value.capture;
      r.value.at == z && z + |marker| < r.value.next == DigitRunEnd(s, z + |marker|) && c == s[z + |marker|..r.value.next] &&
      |c| > 0 && AllDigits(c)
  {
    var i := z + |marker|;
    if StartsAt(s, marker, z) && i < |s| && IsDigit(s[i]) then
      var e := DigitRunEnd(s, i);
      Some(Part(z, s[i..e], e))
    else None
  }

  /** `marker(.+)` with the marker at `z`: the rest of the line, which must not be empty. */
  function RestOfLineAt(s: string, marker: string, z: nat): (r: Option<Part>)
    ensures r.Some? <==> StartsAt(s, marker, z) && z + |marker| < |s| && s[z + |marker|] != '\n'
    ensures r.Some? ==>
      var c := r.value.capture;
      r.value.at == z && z + |marker| < r.value.next == LineEnd(s, z + |marker|) && c == s[z + |marker|..r.value.next] &&
      |c| > 0 && '\n' !in c
  {
    var i := z + |marker|;
    if StartsAt(s, marker, z) && i < |s| && s[i] != '\n' then
      var e := LineEnd(s, i);
      assert forall j :: 0 <= j < e - i ==> s[i..e][j] == s[i + j];
      Some(Part(z, s[i..e], e))
    else None
  }

  /**
   * `marker` then `.+?` (gap 1) or `.*?` (gap 0), then `(\d+)%`, with the marker
   * at `z`: the first `%`-terminated digit run on the marker's line, at least
   * `gap` characters after the marker.
   */
  function PercentPartAt(s: string, marker: string, gap: nat, z: nat): (r: Option<Part>)
    ensures r.Some? <==> StartsAt(s, marker, z) && PercentOnLine(s, z + |marker|, gap).Some?
    ensures r.Some? ==>
      var c, e := r.value.capture, r.value.next - 1;
      r.value.at == z && r.value.next <= |s| && z + |marker| + gap <= e - |c| &&
      s[e] == '%' && |c| > 0 && AllDigits(c) && c == s[e - |c|..e] && '\n' !in s[z + |marker|..e] &&
      forall q :: z + |marker| + gap <= q < e - |c| ==> !PercentAt(s, q)
  {
    var i := z + |marker|;
    var found := if StartsAt(s, marker, z) then PercentOnLine(s, i, gap) else None;
    if found.None? then None
    else
      var q := found.value;
      var e := DigitRunEnd(s, q);
      assert AllDigits(s[q..e]) by {
        assert forall j :: 0 <= j < e - q ==> s[q..e][j] == s[q + j];
      }
      assert '\n' !in s[i..e] by {
        assert forall j :: 0 <= j < e - i ==> s[i..e][j] == s[i + j];
      }
      Some(Part(z, s[q..e], e + 1))
  }

  /** `Mute: (yes|no)` at `z`. */
  function MuteAt(s: string, z: nat): (r: Option<Part>)
    ensures r.Some? <==> StartsAt(s, "Mute: yes", z) || StartsAt(s, "Mute: no", z)
    ensures r.Some? ==>
      r.value.at == z && (r.value.capture == "yes" || r.value.capture == "no") &&
      StartsAt(s, "Mute: " + r.value.capture, z) && r.value.next == z + 6 + |r.value.capture|
  {
    if StartsAt(s, "Mute: yes", z) then
      assert "Mute: " + "yes" == "Mute: yes";
      Some(Part(z, "yes", z + 9))
    else if StartsAt(s, "Mute: no", z) then
      assert "Mute: " + "no" == "Mute: no";
      Some(Part(z, "no", z + 8))
    else None
  }

  /** `marker(.*?)"` with the marker at `z`: everything up to the first quote on the line. */
  function QuotedAt(s: string, marker: string, z: nat): (r: Option<Part>)
    ensures r.Some? <==> StartsAt(s, marker, z) && QuoteOnLine(s, z + |marker|).Some?
    ensures r.Some? ==>
      var c := r.value.capture;
      r.value.at == z && z + |marker| < r.value.next <= |s| && s[r.value.next - 1] == '"' &&
      c == s[z + |marker|..r.value.next - 1] && '"' !in c && '\n' !in c
  {
    var i := z + |marker|;
    var found := if StartsAt(s, marker, z) then QuoteOnLine(s, i) else None;
    if found.None? then None
    else
      var e := found.value;
      assert forall j :: 0 <= j < e - i ==> s[i..e][j] == s[i + j];
      Some(Part(z, s[i..e], e + 1))
  }

  /** The match of one part with its label at index `z`, if there is one. */
  function MatchPartAt(s: string, k: PartKind, z: nat): (r: Option<Part>)
    ensures r.Some? ==> r.value.at == z && z < r.value.next <= |s|
  {
    match k
    case Number(m) => NumberAt(s, m, z)
    case RestOfLine(m) => RestOfLineAt(s, m, z)
    case Percent(m, gap) => PercentPartAt(s, m, gap, z)
    case MuteWord => MuteAt(s, z)
    case Quoted(m) => QuotedAt(s, m, z)
  }

  /** The whole pattern `ks` matches with its first label at `z`. */
  predicate MatchesAt(s: string, ks: seq<PartKind>, z: nat)
    decreases |ks|, 0
  {
    |ks| > 0 && MatchPartAt(s, ks[0], z).Some? && MatchFrom(s, MatchPartAt(s, ks[0], z).value.next, ks[1..]).Some?
  }

  /** `parts` are matches of the parts of `ks`, one each, in textual order. */
  predicate PartsMatch(s: string, ks: seq<PartKind>, parts: seq<Part>) {
    && |parts| == |ks|
    && (forall i :: 0 <= i < |ks| ==> MatchPartAt(s, ks[i], parts[i].at) == Some(parts[i]))
    && (forall i :: 0 < i < |ks| ==> parts[i - 1].next <= parts[i].at)
  }

  /** The least start position at or after `from` from which the whole pattern `ks` matches. */
  function FirstStart(s: string, from: nat, ks: seq<PartKind>): (r: Option<nat>)
    decreases |ks|, 1
    ensures r.Some? ==> from <= r.value <= |s| && MatchesAt(s, ks, r.value)
    ensures r.Some? ==> forall z: nat :: from <= z < r.value ==> !MatchesAt(s, ks, z)
    ensures r.None? ==> forall z: nat :: from <= z <= |s| ==> !MatchesAt(s, ks, z)
  {
    var P := (z: nat) => MatchesAt(s, ks, z);
    var r := FirstWhere(from, |s| + 1, P);
    assert forall z: nat :: P(z) == MatchesAt(s, ks, z);
    r
  }

  /**
   * Leftmost-first search for the pattern `ks` (its parts joined by lazy gaps)
   * at or after `from`: one `FindStringSubmatch` on `s[from..]`. It succeeds at
   * the least start position from which the whole pattern matches, and fails
   * only when there is none.
   */
  function MatchFrom(s: string, from: nat, ks: seq<PartKind>): (r: Option<seq<Part>>)
    decreases |ks|, 2
    ensures r.Some? ==> PartsMatch(s, ks, r.value)
    ensures r.Some? && |ks| > 0 ==> FirstStart(s, from, ks) == Some(r.value[0].at)
    ensures r.None? ==> |ks| > 0 && FirstStart(s, from, ks).None?
    // the later parts are matched lazily: leftmost-first again, from the end of the first
    ensures r.Some? && |ks| > 0 ==> MatchFrom(s, r.value[0].next, ks[1..]) == Some(r.value[1..])
  {
    if ks == [] then Some([])
    else
      var start := FirstStart(s, from, ks);
      if start.None? then None
      else
        var head := MatchPartAt(s, ks[0], start.value).value;
        var tail := MatchFrom(s, head.next, ks[1..]).value;
        ConsParts(s, ks, head, tail);
        Some([head] + tail)
  }

  /** The part-by-part facts of a match, extended by one part in front. */
  lemma ConsParts(s: string, ks: seq<PartKind>, head: Part, tail: seq<Part>)
    requires |ks| > 0 && MatchPartAt(s, ks[0], head.at) == Some(head)
    requires PartsMatch(s, ks[1..], tail)
    requires |tail| > 0 ==> head.next <= tail[0].at
    ensures PartsMatch(s, ks, [head] + tail)
  {
    var r := [head] + tail;
    forall i | 0 < i < |ks| ensures r[i] == tail[i - 1] && ks[i] == ks[1..][i - 1] {
    }
  }

  /** `FindStringSubmatch` of a one-part pattern: its leftmost match. */
  function Find(s: string, k: PartKind): (r: Option<Part>)
    ensures r.Some? ==> MatchPartAt(s, k, r.value.at) == Some(r.value)
    ensures r.Some? ==> forall z: nat :: z < r.value.at ==> MatchPartAt(s, k, z).None?
    ensures r.None? ==> forall z: nat :: MatchPartAt(s, k, z).None?
  {
    var P := (z: nat) => MatchPartAt(s, k, z).Some?;
    var start := FirstWhere(0, |s| + 1, P);
    assert forall z: nat :: P(z) == MatchPartAt(s, k, z).Some?;
    if start.None? then None else MatchPartAt(s, k, start.value)
  }

  /** A one-part pattern is the general search with a single part. */
  lemma FindIsMatchFrom(s: string, k: PartKind)
    ensures Find(s, k).None? <==> MatchFrom(s, 0, [k]).None?
    ensures Find(s, k).Some? ==> MatchFrom(s, 0, [k]) == Some([Find(s, k).value])
  {
    forall z: nat ensures MatchesAt(s, [k], z) == MatchPartAt(s, k, z).Some? {
      OnePartMatchesAt(s, k, z);
    }
    var f, start := Find(s, k), FirstStart(s, 0, [k]);
    if f.None? {
      assert start.None?;
    } else {
      var z := f.value.at;
      assert MatchesAt(s, [k], z);
      assert start == Some(z);
      assert [k][0] == k && [k][1..] == [];
      assert MatchPartAt(s, k, z) == f;
      assert MatchFrom(s, f.value.next, []) == Some([]);
      assert [f.value] + [] == [f.value];
      assert MatchFrom(s, 0, [k]) == Some([f.value]);
    }
  }

  /** A one-part pattern matches at `z` exactly when its part does. */
  lemma OnePartMatchesAt(s: string, k: PartKind, z: nat)
    ensures MatchesAt(s, [k], z) == MatchPartAt(s, k, z).Some?
  {
    assert [k][1..] == [];
  }

  /** The parts of a match lie in order inside the span from the first label to the end of the last part. */
  lemma {:induction false} PartsOrdered(s: string, ks: seq<PartKind>, parts: seq<Part>, i: nat)
    requires PartsMatch(s, ks, parts) && i < |parts|
    decreases |parts| - i
    ensures parts[i].at < parts[i].next <= parts[|parts| - 1].next <= |s|
  {
    assert MatchPartAt(s, ks[i], parts[i].at) == Some(parts[i]);
    if i + 1 < |parts| {
      PartsOrdered(s, ks, parts, i + 1);
      assert MatchPartAt(s, ks[i + 1], parts[i + 1].at) == Some(parts[i + 1]);
    }
  }

  /** The index just after a match (its last part): where `FindAllStringSubmatch` resumes. */
  function End(m: seq<Part>): nat {
    if m == [] then 0 else m[|m| - 1].next
  }

  /**
   * `FindAllStringSubmatch(s[from..], -1)`: the successive non-overlapping
   * leftmost matches, each search resuming where the previous match ended, up
   * to the first search that fails.
   */
  function FindAll(s: string, from: nat, ks: seq<PartKind>): (ms: seq<seq<Part>>)
    requires |ks| > 0
    decreases |s| + 1 - from
    ensures forall i :: 0 <= i < |ms| ==> PartsMatch(s, ks, ms[i]) && from <= ms[i][0].at
    ensures forall i, j :: 0 <= i < j < |ms| ==> |ms[j]| > 0 && End(ms[i]) <= ms[j][0].at
  {
    var first := MatchFrom(s, from, ks);
    if first.None? then []
    else
      var m := first.value;
      PartsOrdered(s, ks, m, 0);
      var rest := FindAll(s, End(m), ks);
      var ms := [m] + rest;
      assert forall i :: 0 < i < |ms| ==> ms[i] == rest[i - 1];
      ms
  }

  /**
   * `FindAll` is the leftmost-first iteration: its first match starts at the
   * least start position at or after `from`, each later one at the least start
   * position at or after the end of the one before, and after the last match
   * there is no start position left.
   */
  lemma {:induction false} FindAllLeftmost(s: string, from: nat, ks: seq<PartKind>)
    requires |ks| > 0
    decreases |s| + 1 - from
    ensures var ms := FindAll(s, from, ks);
      && (|ms| > 0 ==> FirstStart(s, from, ks) == Some(ms[0][0].at))
      && (forall i, j :: 0 <= i && j == i + 1 && j < |ms| ==> FirstStart(s, End(ms[i]), ks) == Some(ms[j][0].at))
      && FirstStart(s, if ms == [] then from else End(ms[|ms| - 1]), ks).None?
  {
    var ms := FindAll(s, from, ks);
    var first := MatchFrom(s, from, ks);
    if first.Some? {
      var m := first.value;
      PartsOrdered(s, ks, m, 0);
      var rest := FindAll(s, End(m), ks);
      assert ms == [m] + rest;
      FindAllLeftmost(s, End(m), ks);
      forall i, j | 0 <= i && j == i + 1 && j < |ms|
        ensures FirstStart(s, End(ms[i]), ks) == Some(ms[j][0].at)
      {
        assert ms[j] == rest[j - 1];
        if i > 0 {
          assert ms[i] == rest[i - 1];
        }
      }
      if rest != [] {
        assert ms[|ms| - 1] == rest[|rest| - 1];
      }
    }
  }

  // ---- where a one-part search lands, in terms of the text

  /** `p` is the leftmost match of part `k`: what `Find` returns when it succeeds. */
  predicate LeftmostPart(s: string, k: PartKind, p: Part) {
    MatchPartAt(s, k, p.at) == Some(p) && forall z: nat :: z < p.at ==> MatchPartAt(s, k, z).None?
  }

  /** `marker` at `z` followed by a non-empty rest of line. */
  predicate LineFieldAt(s: string, marker: string, z: nat) {
    StartsAt(s, marker, z) && z + |marker| < |s| && s[z + |marker|] != '\n'
  }

  lemma RestOfLineFirst(s: string, marker: string, p: Part)
    requires LeftmostPart(s, RestOfLine(marker), p)
    ensures LineFieldAt(s, marker, p.at) && forall z: nat :: z < p.at ==> !LineFieldAt(s, marker, z)
    ensures p.at + |marker| < |s| && p.capture == s[p.at + |marker|..LineEnd(s, p.at + |marker|)]
  {
    assert RestOfLineAt(s, marker, p.at) == Some(p);
    forall z: nat | z < p.at ensures !LineFieldAt(s, marker, z) {
      assert MatchPartAt(s, RestOfLine(marker), z).None?;
    }
  }

  lemma RestOfLineNone(s: string, marker: string)
    requires forall z: nat :: MatchPartAt(s, RestOfLine(marker), z).None?
    ensures forall z: nat :: !LineFieldAt(s, marker, z)
  {
    forall z: nat ensures !LineFieldAt(s, marker, z) {
      assert MatchPartAt(s, RestOfLine(marker), z).None?;
    }
  }

  /** `FindStringSubmatch` of `marker(.+)`: the first `marker` with a non-empty rest of line, and that rest. */
  lemma FindRestOfLine(s: string, marker: string)
    ensures Find(s, RestOfLine(marker)).None? ==> forall z: nat :: !LineFieldAt(s, marker, z)
    ensures Find(s, RestOfLine(marker)).Some? ==>
      var p := Find(s, RestOfLine(marker)).value;
      var i := p.at + |marker|;
      && LineFieldAt(s, marker, p.at) && (forall z: nat :: z < p.at ==> !LineFieldAt(s, marker, z))
      && i < |s| && p.capture == s[i..LineEnd(s, i)]
  {
    var r := Find(s, RestOfLine(marker));
    if r.Some? {
      RestOfLineFirst(s, marker, r.value);
    } else {
      RestOfLineNone(s, marker);
    }
  }

  /** `marker` at `z` followed by a digit. */
  predicate NumberFieldAt(s: string, marker: string, z: nat) {
    StartsAt(s, marker, z) && z + |marker| < |s| && IsDigit(s[z + |marker|])
  }

  lemma NumberFirst(s: string, marker: string, p: Part)
    requires LeftmostPart(s, Number(marker), p)
    ensures NumberFieldAt(s, marker, p.at) && forall z: nat :: z < p.at ==> !NumberFieldAt(s, marker, z)
    ensures p.at + |marker| < |s| && p.capture == s[p.at + |marker|..DigitRunEnd(s, p.at + |marker|)]
  {
    assert NumberAt(s, marker, p.at) == Some(p);
    forall z: nat | z < p.at ensures !NumberFieldAt(s, marker, z) {
      assert MatchPartAt(s, Number(marker), z).None?;
    }
  }

  lemma NumberNone(s: string, marker: string)
    requires forall z: nat :: MatchPartAt(s, Number(marker), z).None?
    ensures forall z: nat :: !NumberFieldAt(s, marker, z)
  {
    forall z: nat ensures !NumberFieldAt(s, marker, z) {
      assert MatchPartAt(s, Number(marker), z).None?;
    }
  }

  /** `FindStringSubmatch` of `marker(\d+)`: the first `marker` followed by a digit, and the whole digit run. */
  lemma FindNumber(s: string, marker: string)
    ensures Find(s, Number(marker)).None? ==> forall z: nat :: !NumberFieldAt(s, marker, z)
    ensures Find(s, Number(marker)).Some? ==>
      var p := Find(s, Number(marker)).value;
      var i := p.at + |marker|;
      && NumberFieldAt(s, marker, p.at) && (forall z: nat :: z < p.at ==> !NumberFieldAt(s, marker, z))
      && i < |s| && p.capture == s[i..DigitRunEnd(s, i)]
  {
    var r := Find(s, Number(marker));
    if r.Some? {
      NumberFirst(s, marker, r.value);
    } else {
      NumberNone(s, marker);
    }
  }

  /** `Mute: yes` or `Mute: no` at `z`. */
  predicate MuteFieldAt(s: string, z: nat) {
    StartsAt(s, "Mute: yes", z) || StartsAt(s, "Mute: no", z)
  }

  lemma MuteFirst(s: string, p: Part)
    requires LeftmostPart(s, MuteWord, p)
    ensures MuteFieldAt(s, p.at) && forall z: nat :: z < p.at ==> !MuteFieldAt(s, z)
    ensures p.capture == "yes" || p.capture == "no"
    ensures p.capture == "yes" <==> StartsAt(s, "Mute: yes", p.at)
  {
    assert MuteAt(s, p.at) == Some(p);
    forall z: nat | z < p.at ensures !MuteFieldAt(s, z) {
      assert MatchPartAt(s, MuteWord, z).None?;
    }
    if p.capture == "no" {
      assert s[p.at + 6] == 'n';
    }
  }

  lemma MuteNone(s: string)
    requires forall z: nat :: MatchPartAt(s, MuteWord, z).None?
    ensures forall z: nat :: !MuteFieldAt(s, z)
  {
    forall z: nat ensures !MuteFieldAt(s, z) {
      assert MatchPartAt(s, MuteWord, z).None?;
    }
  }

  /** `FindStringSubmatch` of `Mute: (yes|no)`: the capture is `yes` exactly when the first such line says `yes`. */
  lemma FindMute(s: string)
    ensures Find(s, MuteWord).None? ==> forall z: nat :: !MuteFieldAt(s, z)
    ensures Find(s, MuteWord).Some? ==>
      var p := Find(s, MuteWord).value;
      && MuteFieldAt(s, p.at) && (forall z: nat :: z < p.at ==> !MuteFieldAt(s, z))
      && (p.capture == "yes" || p.capture == "no")
      && (p.capture == "yes" <==> StartsAt(s, "Mute: yes", p.at))
  {
    var r := Find(s, MuteWord);
    if r.Some? {
      MuteFirst(s, r.value);
    } else {
      MuteNone(s);
    }
  }

  /** `marker` at `z` with a `%`-terminated digit run on its line, at least `gap` characters on. */
  predicate PercentFieldAt(s: string, marker: string, gap: nat, z: nat) {
    StartsAt(s, marker, z) && PercentOnLine(s, z + |marker|, gap).Some?
  }

  lemma PercentFirst(s: string, marker: string, gap: nat, p: Part)
    requires LeftmostPart(s, Percent(marker, gap), p)
    ensures PercentFieldAt(s, marker, gap, p.at) && forall z: nat :: z < p.at ==> !PercentFieldAt(s, marker, gap, z)
    ensures var q := PercentOnLine(s, p.at + |marker|, gap).value;
      p.capture == s[q..DigitRunEnd(s, q)] && s[DigitRunEnd(s, q)] == '%'
  {
    assert PercentPartAt(s, marker, gap, p.at) == Some(p);
    forall z: nat | z < p.at ensures !PercentFieldAt(s, marker, gap, z) {
      assert MatchPartAt(s, Percent(marker, gap), z).None?;
    }
  }

  lemma PercentNone(s: string, marker: string, gap: nat)
    requires forall z: nat :: MatchPartAt(s, Percent(marker, gap), z).None?
    ensures forall z: nat :: !PercentFieldAt(s, marker, gap, z)
  {
    forall z: nat ensures !PercentFieldAt(s, marker, gap, z) {
      assert MatchPartAt(s, Percent(marker, gap), z).None?;
    }
  }

  /**
   * `FindStringSubmatch` of `marker.+?(\d+)%` (gap 1) or `marker.*?(\d+)%`
   * (gap 0): the first `marker` whose line holds such a run, and the digits of
   * the first run, which end right before a `%`.
   */
  lemma FindPercent(s: string, marker: string, gap: nat)
    ensures Find(s, Percent(marker, gap)).None? ==> forall z: nat :: !PercentFieldAt(s, marker, gap, z)
    ensures Find(s, Percent(marker, gap)).Some? ==>
      var p := Find(s, Percent(marker, gap)).value;
      && PercentFieldAt(s, marker, gap, p.at)
      && (forall z: nat :: z < p.at ==> !PercentFieldAt(s, marker, gap, z))
      && var q := PercentOnLine(s, p.at + |marker|, gap).value;
      p.capture == s[q..DigitRunEnd(s, q)] && s[DigitRunEnd(s, q)] == '%'
  {
    var r := Find(s, Percent(marker, gap));
    if r.Some? {
      PercentFirst(s, marker, gap, r.value);
    } else {
      PercentNone(s, marker, gap);
    }
  }
}
