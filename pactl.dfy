/**
 * The snapshot reader and the device setters of api/pactl/pactl.go.
 *
 * The three `pactl list` commands are not run: their outcome is an input,
 * either the text they printed or a failure. A sink or source block that lacks
 * one of its fields makes the source index a nil match and panic; the model
 * reports that as `Panicked`, and a snapshot that would panic as `None`.
 */
module Pactl {
  import opened Wrappers
  import opened Text
  import opened PactlPatterns
  import opened Commands

  /** An output device. */
  datatype Sink = Sink(id: int, name: string, labelText: string, volume: int, muted: bool)

  /** An input device; `monitor` names the sink it monitors, or is `n/a`. */
  datatype Source = Source(id: int, name: string, labelText: string, volume: int, muted: bool, monitor: string, monitored: bool)

  /** A playback stream and the sink it plays on. */
  datatype SinkInput = SinkInput(id: int, sinkID: int, labelText: string, volume: int, muted: bool)

  /** The build information attached to every snapshot; its fields are not modelled. */
  datatype BuildInfo = BuildInfo(fields: map<string, string>)

  /**
   * A snapshot. A section is `None` where the source leaves a nil slice
   * (its listing failed) and `Some` of a possibly empty list otherwise.
   */
  datatype Status = Status(sinks: Option<seq<Sink>>, sinkInputs: Option<seq<SinkInput>>, sources: Option<seq<Source>>, buildInfo: BuildInfo)

  /** What running a `pactl list …` command gave: its standard output, or an error. */
  datatype CmdOutput = Output(text: string) | CmdFailed

  /** The outcome of reading one listing: its records, an error return, or a panic. */
  datatype Listing<T> = Listed(items: seq<T>) | Failed | Panicked

  // ---- strconv.Atoi (int is 64 bits wide)

  const MaxInt: int := 0x7fff_ffff_ffff_ffff
  const MinInt: int := -0x8000_0000_0000_0000

  /** A conversion result: Go returns a value together with an error. */
  datatype Converted = Converted(value: int, ok: bool)

  /** A signed magnitude as `strconv.ParseInt` returns it: clamped to the `int` range, with a range error. */
  function InRange(magnitude: nat, negative: bool): (r: Converted)
    ensures MinInt <= r.value <= MaxInt
    ensures r.ok <==> (if negative then magnitude <= -MinInt else magnitude <= MaxInt)
    ensures r.ok ==> r.value == if negative then 0 - magnitude else magnitude
    ensures !r.ok ==> r.value == if negative then MinInt else MaxInt
  {
    var m: int := magnitude;
    if negative then (if -m >= MinInt then Converted(-m, true) else Converted(MinInt, false))
    else if m <= MaxInt then Converted(m, true) else Converted(MaxInt, false)
  }

  /** Go's `math.MaxUint64`, the bound `strconv.ParseUint` checks after each digit. */
  const MaxUint64: int := 0xffff_ffff_ffff_ffff

  /** The text after an optional leading sign. */
  function Unsigned(s: string): string {
    if |s| > 0 && (s[0] == '+' || s[0] == '-') then s[1..] else s
  }

  /** The digit run at the start of `s`. */
  function LeadingDigits(s: string): (d: string)
    ensures AllDigits(d) && |d| <= |s| && d == s[..|d|]
    ensures |d| < |s| ==> !IsDigit(s[|d|])
  {
    s[..DigitRunEnd(s, 0)]
  }

  /**
   * `strconv.Atoi`: an optionally signed decimal, clamped with a range error
   * when it does not fit. `ParseUint` reads the digits left to right and
   * reports a range error as soon as the digits read so far exceed
   * `MaxUint64`, before it would reach a character that is not a digit;
   * anything else that is not a signed digit string is a syntax error with
   * value 0.
   */
  function Atoi(s: string): (r: Converted)
    ensures MinInt <= r.value <= MaxInt
    ensures |s| > 0 && AllDigits(s) ==> r == InRange(DecimalValue(s), false)
    ensures |s| > 1 && (s[0] == '+' || s[0] == '-') && AllDigits(s[1..]) ==> r == InRange(DecimalValue(s[1..]), s[0] == '-')
    ensures r.ok ==> |Unsigned(s)| > 0 && AllDigits(Unsigned(s))
    ensures DecimalValue(LeadingDigits(Unsigned(s))) > MaxUint64 ==>
      r == Converted(if |s| > 0 && s[0] == '-' then MinInt else MaxInt, false)
    ensures !(|Unsigned(s)| > 0 && AllDigits(Unsigned(s))) && DecimalValue(LeadingDigits(Unsigned(s))) <= MaxUint64 ==>
      r == Converted(0, false)
  {
    var negative := |s| > 0 && s[0] == '-';
    var digits := Unsigned(s);
    var run := LeadingDigits(digits);
    assert AllDigits(digits) ==> run == digits;
    if DecimalValue(run) > MaxUint64 then InRange(DecimalValue(run), negative)
    else if |digits| == 0 || |run| < |digits| then Converted(0, false)
    else InRange(DecimalValue(run), negative)
  }

  /**
   * Digits that exceed `MaxUint64` give a range error even when a character
   * that is not a digit follows them.
   */
  lemma OverflowBeforeSyntax(sign: string, digits: string, rest: string)
    requires sign in {"", "+", "-"} && AllDigits(digits) && DecimalValue(digits) > MaxUint64
    requires |rest| > 0 && !IsDigit(rest[0])
    ensures Atoi(sign + digits + rest) == Converted(if sign == "-" then MinInt else MaxInt, false)
  {
    SignDigitsRest(sign, digits, rest);
  }

  /** Digits within `MaxUint64` followed by a character that is not a digit are a syntax error. */
  lemma SyntaxAfterDigits(sign: string, digits: string, rest: string)
    requires sign in {"", "+", "-"} && |digits| > 0 && AllDigits(digits) && DecimalValue(digits) <= MaxUint64
    requires |rest| > 0 && !IsDigit(rest[0])
    ensures Atoi(sign + digits + rest) == Converted(0, false)
  {
    SignDigitsRest(sign, digits, rest);
  }

  /** How `Atoi` sees a sign, a digit run and a rest that starts with a non-digit. */
  lemma SignDigitsRest(sign: string, digits: string, rest: string)
    requires sign in {"", "+", "-"} && |digits| > 0 && AllDigits(digits)
    requires |rest| > 0 && !IsDigit(rest[0])
    ensures var s := sign + digits + rest;
      LeadingDigits(Unsigned(s)) == digits && !AllDigits(Unsigned(s)) && (s[0] == '-' <==> sign == "-")
  {
    var s := sign + digits + rest;
    assert s == sign + (digits + rest);
    UnsignedAfterSign(sign, digits + rest);
    LeadingDigitsBefore(digits, rest);
    assert Unsigned(s)[|digits|] == rest[0];
  }

  lemma UnsignedAfterSign(sign: string, t: string)
    requires sign in {"", "+", "-"} && |t| > 0 && IsDigit(t[0])
    ensures Unsigned(sign + t) == t
  {
    if sign == "" {
      assert sign + t == t;
    } else {
      assert (sign + t)[1..] == t;
    }
  }

  /** Twenty nines and an `x` clamp with a range error, whatever the sign. */
  lemma AtoiEarlyRange(sign: string, s: string)
    requires sign in {"", "-"} && s == sign + "99999999999999999999x"
    ensures Atoi(s) == Converted(if sign == "-" then MinInt else MaxInt, false)
  {
    var nines := "99999999999999999999";
    assert AllDigits(nines) && DecimalValue(nines) > MaxUint64 by {
      Pow10Values();
      Nines(nines);
      assert |nines| == 20;
    }
    OverflowBeforeSyntax(sign, nines, "x");
    assert s == sign + nines + "x";
  }

  /** A first digit run that overflows `int` but not `uint64` is a syntax error like any other. */
  lemma AtoiWideSyntax(s: string)
    requires s == "9223372036854775808x"
    ensures Atoi(s) == Converted(0, false)
  {
    var big := "9223372036854775808";
    assert AllDigits(big) && DecimalValue(big) <= MaxUint64 by {
      Pow10Values();
      DecimalBelow(big);
      assert |big| == 19;
    }
    SyntaxAfterDigits("", big, "x");
    assert s == "" + big + "x";
  }

  lemma Pow10Values()
    ensures Pow10(19) == 10_000_000_000_000_000_000
    ensures Pow10(20) == 100_000_000_000_000_000_000
  {
    assert Pow10(4) == 10_000;
    Pow10Add(4, 4);
    Pow10Add(8, 8);
    Pow10Add(16, 4);
    Pow10Add(16, 3);
  }

  /** The leading digit run of digits followed by a non-digit is those digits. */
  lemma LeadingDigitsBefore(digits: string, rest: string)
    requires AllDigits(digits) && |rest| > 0 && !IsDigit(rest[0])
    ensures LeadingDigits(digits + rest) == digits
  {
    var s, d := digits + rest, LeadingDigits(digits + rest);
    assert s[|digits|] == rest[0];
    assert d == s[..|digits|];
  }

  /** `Atoi` reads back what `strconv.Itoa` writes, for every `int`. */
  lemma AtoiItoa(i: int)
    requires MinInt <= i <= MaxInt
    ensures Atoi(IntToString(i)) == Converted(i, true)
  {
    var s := IntToString(i);
    if i < 0 {
      NatToStringRoundTrip(-i);
      assert s[1..] == NatToString(-i);
      assert !AllDigits(s) by {
        assert !IsDigit(s[0]);
      }
    } else {
      NatToStringRoundTrip(i);
    }
  }

  // ---- the fields of a sink or source block

  const SinkMarker := "Sink #"
  const SourceMarker := "Source #"
  const SinkIdField := Number(SinkMarker)
  const SourceIdField := Number(SourceMarker)
  const NameField := RestOfLine("Name: ")
  const DescriptionField := RestOfLine("Description: ")
  /** `Volume: .+?(\d+)%`: at least one character between the label and the digits. */
  const VolumeField := Percent("Volume: ", 1)
  const MuteField := MuteWord
  const MonitorField := RestOfLine("Monitor of Sink: ")

  /** The capture of a one-part pattern in `s`, if it matches. */
  function Capture(s: string, k: PartKind): (r: Option<string>)
    ensures r.Some? <==> Find(s, k).Some?
    ensures r.Some? ==> r.value == Find(s, k).value.capture
    ensures r.Some? && (k.Number? || k.Percent?) ==> |r.value| > 0 && AllDigits(r.value)
    ensures r.Some? && k.MuteWord? ==> r.value == "yes" || r.value == "no"
  {
    match Find(s, k)
    case None => None
    case Some(p) => Some(p.capture)
  }

  /**
   * `parseSink`: the id after `Sink #`, the first `Name: ` and `Description: `
   * lines, the first volume percentage and the first mute flag of the block.
   * `None` (a panic) exactly when one of them is missing.
   */
  function ParseSink(block: string): (r: Option<Sink>)
    ensures r.Some? <==>
      Find(block, SinkIdField).Some? && Find(block, NameField).Some? && Find(block, DescriptionField).Some? &&
      Find(block, VolumeField).Some? && Find(block, MuteField).Some?
    ensures r.Some? ==>
      && r.value.id == Atoi(Capture(block, SinkIdField).value).value
      && r.value.name == Capture(block, NameField).value
      && r.value.labelText == Capture(block, DescriptionField).value
      && r.value.volume == Atoi(Capture(block, VolumeField).value).value
      && (r.value.muted <==> Capture(block, MuteField) == Some("yes"))
  {
    var id, name, desc, volume, mute :=
      Capture(block, SinkIdField), Capture(block, NameField), Capture(block, DescriptionField),
      Capture(block, VolumeField), Capture(block, MuteField);
    if id.None? || name.None? || desc.None? || volume.None? || mute.None? then None
    else Some(Sink(Atoi(id.value).value, name.value, desc.value, Atoi(volume.value).value, mute.value == "yes"))
  }

  /**
   * `parseSources`: the fields of `parseSink` under `Source #`, and the first
   * `Monitor of Sink: ` line, the source being monitored unless it says `n/a`.
   */
  function ParseSource(block: string): (r: Option<Source>)
    ensures r.Some? <==>
      Find(block, SourceIdField).Some? && Find(block, NameField).Some? && Find(block, DescriptionField).Some? &&
      Find(block, VolumeField).Some? && Find(block, MuteField).Some? && Find(block, MonitorField).Some?
    ensures r.Some? ==>
      && r.value.id == Atoi(Capture(block, SourceIdField).value).value
      && r.value.name == Capture(block, NameField).value
      && r.value.labelText == Capture(block, DescriptionField).value
      && r.value.volume == Atoi(Capture(block, VolumeField).value).value
      && (r.value.muted <==> Capture(block, MuteField) == Some("yes"))
      && r.value.monitor == Capture(block, MonitorField).value
      && (r.value.monitored <==> r.value.monitor != "n/a")
  {
    var id, name, desc, volume, mute, monitor :=
      Capture(block, SourceIdField), Capture(block, NameField), Capture(block, DescriptionField),
      Capture(block, VolumeField), Capture(block, MuteField), Capture(block, MonitorField);
    if id.None? || name.None? || desc.None? || volume.None? || mute.None? || monitor.None? then None
    else
      Some(Source(Atoi(id.value).value, name.value, desc.value, Atoi(volume.value).value, mute.value == "yes",
                  monitor.value, monitor.value != "n/a"))
  }

  // ---- splitting a listing into blocks

  /** The pieces after the first, each with `marker` put back in front. */
  function Prefixed(marker: string, pieces: seq<string>): (bs: seq<string>)
    requires |pieces| >= 1
    ensures |bs| == |pieces| - 1
    ensures forall i :: 0 <= i < |bs| ==> bs[i] == marker + pieces[i + 1]
  {
    seq(|pieces| - 1, i requires 0 <= i < |pieces| - 1 => marker + pieces[i + 1])
  }

  /**
   * The blocks of a listing: every piece of `strings.Split(text, marker)`
   * after the first, with the marker put back in front.
   */
  function Blocks(text: string, marker: string): seq<string>
    requires |marker| > 0
  {
    Prefixed(marker, Split(text, marker))
  }

  /** Every block parsed in order, or `Panicked` if any block lacks a field. */
  function ParseEach<T>(blocks: seq<string>, parse: string -> Option<T>): (r: Listing<T>)
    ensures r.Listed? || r.Panicked?
    ensures r.Listed? <==> forall i :: 0 <= i < |blocks| ==> parse(blocks[i]).Some?
    ensures r.Listed? ==> |r.items| == |blocks| && forall i :: 0 <= i < |blocks| ==> Some(r.items[i]) == parse(blocks[i])
  {
    if forall i :: 0 <= i < |blocks| ==> parse(blocks[i]).Some? then
      Listed(seq(|blocks|, i requires 0 <= i < |blocks| => parse(blocks[i]).value))
    else Panicked
  }

  /** What `GetSinks` returns for a command outcome. */
  function SinksOf(out: CmdOutput): Listing<Sink> {
    match out
    case CmdFailed => Failed
    case Output(text) => ParseEach(Blocks(text, SinkMarker), ParseSink)
  }

  /** What `GetSources` returns for a command outcome. */
  function SourcesOf(out: CmdOutput): Listing<Source> {
    match out
    case CmdFailed => Failed
    case Output(text) => ParseEach(Blocks(text, SourceMarker), ParseSource)
  }

  /**
   * The loop of `GetSinks` and `GetSources`: for every piece after the first,
   * put the marker back, parse the block and append its record; a block that
   * lacks a field panics.
   */
  method AppendParsed<T>(pieces: seq<string>, marker: string, parse: string -> Option<T>) returns (r: Listing<T>)
    requires |pieces| >= 1
    ensures r == ParseEach(Prefixed(marker, pieces), parse)
  {
    var records: seq<T> := [];
    var i := 1;
    while i < |pieces|
      invariant 1 <= i <= |pieces|
      invariant |records| == i - 1
      invariant forall j :: 0 <= j < i - 1 ==> parse(marker + pieces[j + 1]) == Some(records[j])
    {
      var record := parse(marker + pieces[i]);
      if record.None? {
        assert Prefixed(marker, pieces)[i - 1] == marker + pieces[i];
        return Panicked;
      }
      records := records + [record.value];
      i := i + 1;
    }
    ghost var blocks := Prefixed(marker, pieces);
    assert forall j :: 0 <= j < |blocks| ==> parse(blocks[j]) == Some(records[j]);
    assert ParseEach(blocks, parse).items == records;
    r := Listed(records);
  }

  /** `GetSinks`: split the listing on `Sink #` and read one record per block. */
  method GetSinks(out: CmdOutput) returns (r: Listing<Sink>)
    ensures r == SinksOf(out)
  {
    if out.CmdFailed? {
      return Failed;
    }
    var pieces := Split(out.text, SinkMarker);
    r := AppendParsed(pieces, SinkMarker, ParseSink);
  }

  /** `GetSources`: split the listing on `Source #` and read one record per block. */
  method GetSources(out: CmdOutput) returns (r: Listing<Source>)
    ensures r == SourcesOf(out)
  {
    if out.CmdFailed? {
      return Failed;
    }
    var pieces := Split(out.text, SourceMarker);
    r := AppendParsed(pieces, SourceMarker, ParseSource);
  }

  // ---- the playback streams

  /**
   * `Sink Input #(\d+)[\s\S]*?Sink: (\d+)[\s\S]*?Mute: (yes|no)[\s\S]*?Volume:.*?(\d+)%[\s\S]*?application\.name = "(.*?)"`.
   */
  const SinkInputPattern := [Number("Sink Input #"), Number("Sink: "), MuteWord, Percent("Volume:", 0), Quoted("application.name = \"")]

  /**
   * The record of one match (its five captures in pattern order), or `None`
   * when `strconv.Atoi` rejects the id, the sink id or the volume.
   */
  function SinkInputOf(m: seq<Part>): (r: Option<SinkInput>)
    requires |m| == |SinkInputPattern|
    ensures r.Some? <==> Atoi(m[0].capture).ok && Atoi(m[1].capture).ok && Atoi(m[3].capture).ok
    ensures r.Some? ==> r.value == SinkInput(Atoi(m[0].capture).value, Atoi(m[1].capture).value, m[4].capture,
                                             Atoi(m[3].capture).value, m[2].capture == "yes")
  {
    var id, sinkID, volume := Atoi(m[0].capture), Atoi(m[1].capture), Atoi(m[3].capture);
    if !id.ok || !sinkID.ok || !volume.ok then None
    else Some(SinkInput(id.value, sinkID.value, m[4].capture, volume.value, m[2].capture == "yes"))
  }

  /** The matches `FindAllStringSubmatch(text, -1)` returns. */
  function SinkInputMatches(text: string): (ms: seq<seq<Part>>)
    ensures forall i :: 0 <= i < |ms| ==> |ms[i]| == |SinkInputPattern|
    ensures forall i :: 0 <= i < |ms| ==> PartsMatch(text, SinkInputPattern, ms[i])
  {
    FindAll(text, 0, SinkInputPattern)
  }

  /** Every element converted in order, or `None` if one conversion fails. */
  function ConvertEach<M, T>(ms: seq<M>, conv: M --> Option<T>): (r: Option<seq<T>>)
    requires forall i :: 0 <= i < |ms| ==> conv.requires(ms[i])
    ensures r.Some? <==> forall i :: 0 <= i < |ms| ==> conv(ms[i]).Some?
    ensures r.Some? ==> |r.value| == |ms| && forall i :: 0 <= i < |ms| ==> conv(ms[i]) == Some(r.value[i])
  {
    if forall i :: 0 <= i < |ms| ==> conv(ms[i]).Some? then
      Some(seq(|ms|, i requires 0 <= i < |ms| => conv(ms[i]).value))
    else None
  }

  /**
   * The loop of `GetSinkInputs`: a slice with one slot per match, filled in
   * order, the whole call failing at the first conversion that fails.
   */
  method ConvertAll<M, T(0)>(ms: seq<M>, conv: M --> Option<T>) returns (r: Option<seq<T>>)
    requires forall i :: 0 <= i < |ms| ==> conv.requires(ms[i])
    ensures r == ConvertEach(ms, conv)
  {
    var slots := new T[|ms|];
    var i := 0;
    while i < |ms|
      invariant 0 <= i <= |ms|
      invariant forall j :: 0 <= j < i ==> conv(ms[j]) == Some(slots[j])
    {
      var x := conv(ms[i]);
      if x.None? {
        return None;
      }
      slots[i] := x.value;
      i := i + 1;
    }
    assert ConvertEach(ms, conv).value == slots[..];
    r := Some(slots[..]);
  }

  /** What `GetSinkInputs` returns for a command outcome. */
  function SinkInputsOf(out: CmdOutput): Listing<SinkInput> {
    match out
    case CmdFailed => Failed
    case Output(text) =>
      match ConvertEach(SinkInputMatches(text), SinkInputOf)
      case None => Failed
      case Some(inputs) => Listed(inputs)
  }

  /** `GetSinkInputs`: one record per match in order; a number `Atoi` rejects returns an error instead. */
  method GetSinkInputs(out: CmdOutput) returns (r: Listing<SinkInput>)
    ensures r == SinkInputsOf(out)
  {
    if out.CmdFailed? {
      return Failed;
    }
    var matches := SinkInputMatches(out.text);
    var inputs := ConvertAll(matches, SinkInputOf);
    r := if inputs.Some? then Listed(inputs.value) else Failed;
  }

  // ---- the snapshot

  /** The section a listing leaves in the snapshot: a nil slice unless it was listed. */
  function Section<T>(l: Listing<T>): (r: Option<seq<T>>)
    ensures r.Some? <==> l.Listed?
    ensures r.Some? ==> r.value == l.items
  {
    if l.Listed? then Some(l.items) else None
  }

  /**
   * What `GetStatus` returns, or `None` where reading the sinks or the sources
   * panics. A failed listing only empties its own section: the others are
   * filled as if it had succeeded.
   */
  function StatusOf(sinksOut: CmdOutput, sourcesOut: CmdOutput, inputsOut: CmdOutput, bi: BuildInfo): (r: Option<Status>)
    ensures r.None? <==> SinksOf(sinksOut).Panicked? || SourcesOf(sourcesOut).Panicked?
    ensures r.Some? ==>
      && (r.value.sinks.None? <==> sinksOut.CmdFailed?)
      && (r.value.sources.None? <==> sourcesOut.CmdFailed?)
      && (r.value.sinkInputs.None? <==> SinkInputsOf(inputsOut).Failed?)
      && (r.value.sinks.Some? ==> r.value.sinks.value == SinksOf(sinksOut).items)
      && (r.value.sources.Some? ==> r.value.sources.value == SourcesOf(sourcesOut).items)
      && (r.value.sinkInputs.Some? ==> r.value.sinkInputs.value == SinkInputsOf(inputsOut).items)
      && r.value.buildInfo == bi
  {
    var sinks, sources, inputs := SinksOf(sinksOut), SourcesOf(sourcesOut), SinkInputsOf(inputsOut);
    if sinks.Panicked? || sources.Panicked? then None
    else Some(Status(Section(sinks), Section(inputs), Section(sources), bi))
  }

  /** `GetStatus`: the three listings in turn, each failure only logged. */
  method GetStatus(sinksOut: CmdOutput, sourcesOut: CmdOutput, inputsOut: CmdOutput, bi: BuildInfo) returns (r: Option<Status>)
    ensures r == StatusOf(sinksOut, sourcesOut, inputsOut, bi)
  {
    var sinks := GetSinks(sinksOut);
    if sinks.Panicked? {
      return None;
    }
    var sources := GetSources(sourcesOut);
    if sources.Panicked? {
      return None;
    }
    var inputs := GetSinkInputs(inputsOut);
    return Some(Status(Section(sinks), Section(inputs), Section(sources), bi));
  }

  // ---- the setters: each passes its fixed device kind to the command builders

  function SetSinkVolume(sinkName: string, volume: string): (c: Command)
    ensures c == Command(Program, ["set-sink-volume", sinkName, volume + "%"])
    ensures Decode(c) == Some(VolumeChange("sink", sinkName, volume))
  {
    assert "set-" + "sink" + "-volume" == "set-sink-volume";
    SetVolume("sink", sinkName, volume)
  }

  function SetSinkMuted(sinkName: string, muted: bool): (c: Command)
    ensures c == Command(Program, ["set-sink-mute", sinkName, if muted then "true" else "false"])
    ensures Decode(c) == Some(MuteChange("sink", sinkName, muted))
  {
    assert "set-" + "sink" + "-mute" == "set-sink-mute";
    SetMuted("sink", sinkName, muted)
  }

  function SetSinkInputVolume(sinkInputID: string, volume: string): (c: Command)
    ensures c == Command(Program, ["set-sink-input-volume", sinkInputID, volume + "%"])
    ensures Decode(c) == Some(VolumeChange("sink-input", sinkInputID, volume))
  {
    assert "set-" + "sink-input" + "-volume" == "set-sink-input-volume";
    SetVolume("sink-input", sinkInputID, volume)
  }

  function SetSinkInputMuted(sinkInputID: string, muted: bool): (c: Command)
    ensures c == Command(Program, ["set-sink-input-mute", sinkInputID, if muted then "true" else "false"])
    ensures Decode(c) == Some(MuteChange("sink-input", sinkInputID, muted))
  {
    assert "set-" + "sink-input" + "-mute" == "set-sink-input-mute";
    SetMuted("sink-input", sinkInputID, muted)
  }

  function MoveSinkInput(sinkInputID: string, sinkName: string): (c: Command)
    ensures c == Command(Program, ["move-sink-input", sinkInputID, sinkName])
    ensures Decode(c) == Some(StreamMove("sink-input", sinkInputID, sinkName))
  {
    assert "move-" + "sink-input" == "move-sink-input";
    MoveApp("sink-input", sinkInputID, sinkName)
  }

  function SetSourceVolume(sourceName: string, volume: string): (c: Command)
    ensures c == Command(Program, ["set-source-volume", sourceName, volume + "%"])
    ensures Decode(c) == Some(VolumeChange("source", sourceName, volume))
  {
    assert "set-" + "source" + "-volume" == "set-source-volume";
    SetVolume("source", sourceName, volume)
  }

  function SetSourceMuted(sourceName: string, muted: bool): (c: Command)
    ensures c == Command(Program, ["set-source-mute", sourceName, if muted then "true" else "false"])
    ensures Decode(c) == Some(MuteChange("source", sourceName, muted))
  {
    assert "set-" + "source" + "-mute" == "set-source-mute";
    SetMuted("source", sourceName, muted)
  }

  function SetSourceInputVolume(sourceInputID: string, volume: string): (c: Command)
    ensures c == Command(Program, ["set-source-input-volume", sourceInputID, volume + "%"])
    ensures Decode(c) == Some(VolumeChange("source-input", sourceInputID, volume))
  {
    assert "set-" + "source-input" + "-volume" == "set-source-input-volume";
    SetVolume("source-input", sourceInputID, volume)
  }

  function SetSourceInputMuted(sourceInputID: string, muted: bool): (c: Command)
    ensures c == Command(Program, ["set-source-input-mute", sourceInputID, if muted then "true" else "false"])
    ensures Decode(c) == Some(MuteChange("source-input", sourceInputID, muted))
  {
    assert "set-" + "source-input" + "-mute" == "set-source-input-mute";
    SetMuted("source-input", sourceInputID, muted)
  }

  function MoveSourceOutput(sourceOutputID: string, sourceName: string): (c: Command)
    ensures c == Command(Program, ["move-source-output", sourceOutputID, sourceName])
    ensures Decode(c) == Some(StreamMove("source-output", sourceOutputID, sourceName))
  {
    assert "move-" + "source-output" == "move-source-output";
    MoveApp("source-output", sourceOutputID, sourceName)
  }

  // ---- what the listings promise

  /** `GetSinks` returns one record per occurrence of `Sink #`, in input order. */
  lemma SinksPerMarker(text: string)
    requires SinksOf(Output(text)).Listed?
    ensures |SinksOf(Output(text)).items| == Occurrences(text, SinkMarker)
    ensures forall i :: 0 <= i < Occurrences(text, SinkMarker) ==>
      Some(SinksOf(Output(text)).items[i]) == ParseSink(SinkMarker + Split(text, SinkMarker)[i + 1])
  {
    SplitCount(text, SinkMarker);
  }

  /** `GetSources` returns one record per occurrence of `Source #`, in input order. */
  lemma SourcesPerMarker(text: string)
    requires SourcesOf(Output(text)).Listed?
    ensures |SourcesOf(Output(text)).items| == Occurrences(text, SourceMarker)
    ensures forall i :: 0 <= i < Occurrences(text, SourceMarker) ==>
      Some(SourcesOf(Output(text)).items[i]) == ParseSource(SourceMarker + Split(text, SourceMarker)[i + 1])
  {
    SplitCount(text, SourceMarker);
  }

  /** A listing without its marker has no records, and no block that could panic. */
  lemma ListingsWithoutMarker(text: string)
    ensures !Contains(text, SinkMarker) ==> SinksOf(Output(text)) == Listed([])
    ensures !Contains(text, SourceMarker) ==> SourcesOf(Output(text)) == Listed([])
  {
    if !Contains(text, SinkMarker) {
      SplitWithout(text, SinkMarker);
    }
    if !Contains(text, SourceMarker) {
      SplitWithout(text, SourceMarker);
    }
  }

  /** Whatever precedes the first occurrence of the marker belongs to no block. */
  lemma BlocksDropLeadingText(text: string, marker: string, m: nat)
    requires |marker| > 0 && IndexOf(text, marker) == Some(m)
    ensures Blocks(text, marker) == Blocks(text[m..], marker)
  {
    var t := text[m..];
    assert StartsAt(t, marker, 0) by {
      assert t[..|marker|] == text[m..m + |marker|];
    }
    assert IndexOf(t, marker) == Some(0);
    assert t[|marker|..] == text[m + |marker|..];
    var x, y := Split(text, marker), Split(t, marker);
    assert |x| == |y| && x[1..] == y[1..];
    assert forall i :: 0 < i < |x| ==> x[i] == y[i] by {
      forall i | 0 < i < |x| ensures x[i] == y[i] {
        assert x[i] == x[1..][i - 1] && y[i] == y[1..][i - 1];
      }
    }
  }

  /** Text before the first `Sink #` or `Source #` is dropped, whatever it holds. */
  lemma LeadingTextDropped(text: string)
    ensures IndexOf(text, SinkMarker).Some? ==>
      SinksOf(Output(text)) == SinksOf(Output(text[IndexOf(text, SinkMarker).value..]))
    ensures IndexOf(text, SourceMarker).Some? ==>
      SourcesOf(Output(text)) == SourcesOf(Output(text[IndexOf(text, SourceMarker).value..]))
  {
    if IndexOf(text, SinkMarker).Some? {
      BlocksDropLeadingText(text, SinkMarker, IndexOf(text, SinkMarker).value);
    }
    if IndexOf(text, SourceMarker).Some? {
      BlocksDropLeadingText(text, SourceMarker, IndexOf(text, SourceMarker).value);
    }
  }

  /** One block without all of its fields makes the whole listing panic. */
  lemma MissingFieldPanics(text: string, i: nat)
    ensures i < |Blocks(text, SinkMarker)| && ParseSink(Blocks(text, SinkMarker)[i]).None? ==>
      SinksOf(Output(text)) == Panicked
    ensures i < |Blocks(text, SourceMarker)| && ParseSource(Blocks(text, SourceMarker)[i]).None? ==>
      SourcesOf(Output(text)) == Panicked
  {
  }

  /** The first character of `marker` does not recur in it, as in `Sink #` and `Source #`. */
  predicate HeadUnique(marker: string) {
    |marker| > 0 && forall i :: 0 < i < |marker| ==> marker[i] != marker[0]
  }

  /** In a block, the marker occurs only at its start. */
  lemma MarkerOnlyAtStart(marker: string, piece: string)
    requires HeadUnique(marker) && !Contains(piece, marker)
    ensures forall z: nat :: 0 < z ==> !StartsAt(marker + piece, marker, z)
  {
    var block, n := marker + piece, |marker|;
    forall z: nat | 0 < z ensures !StartsAt(block, marker, z) {
      if z < n && z + n <= |block| {
        assert block[z..z + n][0] != marker[0];
      } else if z >= n && z + n <= |block| {
        assert block[z..z + n] == piece[z - n..z - n + n];
        assert !StartsAt(piece, marker, z - n);
      }
    }
  }

  /**
   * The id of a block is the whole digit run right after its marker; a block
   * whose marker is not followed by a digit has no id, and parsing it panics.
   */
  lemma IdAfterMarker(marker: string, piece: string)
    requires HeadUnique(marker) && !Contains(piece, marker)
    ensures |piece| > 0 && IsDigit(piece[0]) ==>
      Capture(marker + piece, Number(marker)) == Some(piece[..DigitRunEnd(piece, 0)])
    ensures !(|piece| > 0 && IsDigit(piece[0])) ==> Capture(marker + piece, Number(marker)).None?
  {
    var block, n := marker + piece, |marker|;
    MarkerOnlyAtStart(marker, piece);
    FindNumber(block, marker);
    assert block[..n] == marker;
    if |piece| > 0 && IsDigit(piece[0]) {
      assert block[n] == piece[0];
      assert NumberFieldAt(block, marker, 0);
      IdCapture(marker, piece, Find(block, Number(marker)).value);
    } else if |piece| > 0 {
      assert block[n] == piece[0];
    }
  }

  /** A number found at the start of a block captures the digit run of the piece after the marker. */
  lemma IdCapture(marker: string, piece: string, p: Part)
    requires p.at == 0 && |marker| < |marker + piece|
    requires p.capture == (marker + piece)[|marker|..DigitRunEnd(marker + piece, |marker|)]
    ensures p.capture == piece[..DigitRunEnd(piece, 0)]
  {
    var block, n := marker + piece, |marker|;
    DigitRunShift(marker, piece, 0);
    var e := DigitRunEnd(piece, 0);
    assert block[n..n + e] == piece[..e];
  }

  /**
   * Every block of a listing starts with its marker alone: its id is the digit
   * run that follows, and a block without one makes the whole listing panic.
   */
  lemma BlockIds(text: string, i: nat)
    ensures i < |Blocks(text, SinkMarker)| ==>
      var piece := Split(text, SinkMarker)[i + 1];
      && (|piece| > 0 && IsDigit(piece[0]) ==>
            Capture(Blocks(text, SinkMarker)[i], SinkIdField) == Some(piece[..DigitRunEnd(piece, 0)]))
      && (!(|piece| > 0 && IsDigit(piece[0])) ==> SinksOf(Output(text)) == Panicked)
    ensures i < |Blocks(text, SourceMarker)| ==>
      var piece := Split(text, SourceMarker)[i + 1];
      && (|piece| > 0 && IsDigit(piece[0]) ==>
            Capture(Blocks(text, SourceMarker)[i], SourceIdField) == Some(piece[..DigitRunEnd(piece, 0)]))
      && (!(|piece| > 0 && IsDigit(piece[0])) ==> SourcesOf(Output(text)) == Panicked)
  {
    assert HeadUnique(SinkMarker) && HeadUnique(SourceMarker);
    if i < |Blocks(text, SinkMarker)| {
      var block := Blocks(text, SinkMarker)[i];
      IdAfterMarker(SinkMarker, Split(text, SinkMarker)[i + 1]);
      if Capture(block, SinkIdField).None? {
        assert ParseSink(block).None?;
      }
    }
    if i < |Blocks(text, SourceMarker)| {
      var block := Blocks(text, SourceMarker)[i];
      IdAfterMarker(SourceMarker, Split(text, SourceMarker)[i + 1]);
      if Capture(block, SourceIdField).None? {
        assert ParseSource(block).None?;
      }
    }
  }

  /** A digit run in a suffix ends where it ends in the whole string. */
  lemma {:induction false} DigitRunShift(prefix: string, s: string, i: nat)
    requires i <= |s|
    decreases |s| - i
    ensures DigitRunEnd(prefix + s, |prefix| + i) == |prefix| + DigitRunEnd(s, i)
  {
    if i < |s| && IsDigit(s[i]) {
      assert (prefix + s)[|prefix| + i] == s[i];
      DigitRunShift(prefix, s, i + 1);
    } else if i < |s| {
      assert (prefix + s)[|prefix| + i] == s[i];
    }
  }

  /** The five captures of a sink-input match lie in pattern order. */
  lemma SinkInputFieldOrder(text: string, m: seq<Part>)
    requires PartsMatch(text, SinkInputPattern, m)
    ensures m[0].next <= m[1].at && m[1].next <= m[2].at && m[2].next <= m[3].at && m[3].next <= m[4].at
  {
    assert |SinkInputPattern| == 5;
  }

  /**
   * `GetSinkInputs` returns one record per non-overlapping leftmost match, in
   * order; within a match the id, `Sink:`, `Mute:`, `Volume:` and
   * `application.name` fields come in that textual order.
   */
  lemma SinkInputsPerMatch(text: string)
    requires SinkInputsOf(Output(text)).Listed?
    ensures var items, ms := SinkInputsOf(Output(text)).items, SinkInputMatches(text);
      && |items| == |ms|
      && (forall i :: 0 <= i < |ms| ==> SinkInputOf(ms[i]) == Some(items[i]))
      && (forall i, j :: 0 <= i < j < |ms| ==> End(ms[i]) <= ms[j][0].at)
  {
  }

  /** A match whose conversion fails makes `GetSinkInputs` return an error and no list. */
  lemma SinkInputConversionFails(text: string, i: nat)
    requires i < |SinkInputMatches(text)| && SinkInputOf(SinkInputMatches(text)[i]).None?
    ensures SinkInputsOf(Output(text)) == Failed
  {
    ConvertEachFails(SinkInputMatches(text), SinkInputOf, i);
  }

  /** A match converts exactly when `Atoi` accepts its id, its sink id and its volume. */
  lemma ConversionFails(m: seq<Part>)
    requires |m| == |SinkInputPattern|
    ensures SinkInputOf(m).None? <==> !Atoi(m[0].capture).ok || !Atoi(m[1].capture).ok || !Atoi(m[3].capture).ok
  {
  }

  lemma ConvertEachFails<M, T>(ms: seq<M>, conv: M --> Option<T>, i: nat)
    requires forall i :: 0 <= i < |ms| ==> conv.requires(ms[i])
    requires i < |ms| && conv(ms[i]).None?
    ensures ConvertEach(ms, conv).None?
  {
  }
}
