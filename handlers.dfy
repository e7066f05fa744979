/**
 * The ten request handlers of api/ws/handlers.go. Each checks that the
 * payload decoded to a JSON object, reads its fields with Go's zero value as
 * the fallback for a missing or wrongly typed field, issues exactly one pactl
 * command and attaches a fresh snapshot to the response. A payload that is
 * not an object gets the device family's format error and status 4002, and
 * no command is issued.
 *
 * The snapshot that `GetStatus` takes after the command is a parameter: the
 * audio server's reaction to the command is outside the model.
 */
module Handlers {
  import opened Wrappers
  import opened Text
  import opened Commands
  import Pactl
  import opened Envelope

  /** What a handler leaves behind: the response it filled in and the command it issued, if any. */
  datatype Outcome = Outcome(response: Response, issued: Option<Command>)

  const InvalidSinkFormat := "Invalid sink information format"
  const InvalidSourceFormat := "Invalid source information format"

  // ---- reading payload fields, with the zero value when the type assertion fails

  function StringField(info: map<string, Json>, key: string): string {
    if key in info && info[key].JStr? then info[key].s else ""
  }

  function NumberField(info: map<string, Json>, key: string): int {
    if key in info && info[key].JNum? then info[key].n else 0
  }

  function BoolField(info: map<string, Json>, key: string): bool {
    if key in info && info[key].JBool? then info[key].b else false
  }

  /** `fmt.Sprintf("%.2f", v)` for a whole-number `v`. */
  function TwoDecimals(v: int): string {
    IntToString(v) + ".00"
  }

  /** `fmt.Sprintf("%.0f", v)` for a whole-number `v`. */
  function NoDecimals(v: int): string {
    IntToString(v)
  }

  /** A volume is rendered with two zero decimals, and the digits before them read back as the number. */
  lemma TwoDecimalsReadBack(v: int)
    ensures var t := TwoDecimals(v); |t| >= 4 && t[|t| - 3..] == ".00" && ParseInt(t[..|t| - 3]) == Some(v)
  {
    var t := TwoDecimals(v);
    assert t[..|t| - 3] == IntToString(v);
    IntToStringRoundTrip(v);
  }

  /** A stream id is rendered as its integer text, which reads back as the id. */
  lemma NoDecimalsReadBack(v: int)
    ensures ParseInt(NoDecimals(v)) == Some(v)
  {
    IntToStringRoundTrip(v);
  }

  /** As the handlers promise: a volume of 55 is passed as `55.00`. */
  lemma TwoDecimalsExample()
    ensures TwoDecimals(55) == "55.00"
  {
    assert NatToString(55) == NatToString(5) + [DigitChar(5)];
  }

  // ---- what each handler asks for

  /** The ten handlers, one per setter action. */
  datatype Setter =
    | SinkVolume | SinkMuted | SinkInputVolume | SinkInputMuted | SinkInputMove
    | SourceVolume | SourceMuted | SourceInputVolume | SourceInputMuted | SourceOutputMove

  /** The action a handler serves. */
  function ActionOf(h: Setter): string {
    match h
    case SinkVolume => ActionSetSinkVolume
    case SinkMuted => ActionSetSinkMuted
    case SinkInputVolume => ActionSetSinkInputVolume
    case SinkInputMuted => ActionSetSinkInputMuted
    case SinkInputMove => ActionMoveSinkInput
    case SourceVolume => ActionSetSourceVolume
    case SourceMuted => ActionSetSourceMuted
    case SourceInputVolume => ActionSetSourceInputVolume
    case SourceInputMuted => ActionSetSourceInputMuted
    case SourceOutputMove => ActionMoveSourceOutput
  }

  /**
   * The handlers serve exactly the ten setter actions of `AvailableCommands`,
   * in its order, one action each; `GetStatus` and `GetBuildInfo` have none.
   */
  lemma HandlersServeSetters()
    ensures AvailableCommands[..2] == [ActionGetStatus, ActionGetBuildInfo]
    ensures AvailableCommands[2..] ==
      [ActionOf(SinkVolume), ActionOf(SinkMuted), ActionOf(SinkInputVolume), ActionOf(SinkInputMuted),
       ActionOf(SinkInputMove), ActionOf(SourceVolume), ActionOf(SourceMuted), ActionOf(SourceInputVolume),
       ActionOf(SourceInputMuted), ActionOf(SourceOutputMove)]
    ensures forall g, h :: ActionOf(g) == ActionOf(h) ==> g == h
  {
    AvailableCommandsDistinct();
  }

  /**
   * The mutation a handler requests, read from the payload object: the
   * device kind of its action, the target by name or by integer id, and the
   * value.
   */
  function Requested(h: Setter, info: map<string, Json>): Mutation {
    var name, id, volume, muted := StringField(info, "name"), NoDecimals(NumberField(info, "id")),
                                   TwoDecimals(NumberField(info, "volume")), BoolField(info, "muted");
    match h
    case SinkVolume => VolumeChange("sink", name, volume)
    case SinkMuted => MuteChange("sink", name, muted)
    case SinkInputVolume => VolumeChange("sink-input", id, volume)
    case SinkInputMuted => MuteChange("sink-input", id, muted)
    case SinkInputMove => StreamMove("sink-input", id, name)
    case SourceVolume => VolumeChange("source", name, volume)
    case SourceMuted => MuteChange("source", name, muted)
    case SourceInputVolume => VolumeChange("source-input", id, volume)
    case SourceInputMuted => MuteChange("source-input", id, muted)
    case SourceOutputMove =>
      StreamMove("source-output", NoDecimals(NumberField(info, "outputId")), StringField(info, "sourceName"))
  }

  /** The format error a handler reports, by device family. */
  function FormatError(h: Setter): string {
    if h in {SourceVolume, SourceMuted, SourceInputVolume, SourceInputMuted, SourceOutputMove}
    then InvalidSourceFormat else InvalidSinkFormat
  }

  function KindOf(m: Mutation): string {
    match m
    case VolumeChange(kind, _, _) => kind
    case MuteChange(kind, _, _) => kind
    case StreamMove(kind, _, _) => kind
  }

  /**
   * A sink handler changes a sink or one of its streams and reports the sink
   * format error; a source handler changes a source or one of its streams
   * and reports the source format error.
   */
  lemma RequestedKind(h: Setter, info: map<string, Json>)
    ensures var kind := KindOf(Requested(h, info));
      (FormatError(h) == InvalidSinkFormat <==> kind in {"sink", "sink-input"}) &&
      (FormatError(h) == InvalidSourceFormat <==> kind in {"source", "source-input", "source-output"})
  {
  }

  /**
   * A missing field does not reject the request: an empty object still
   * requests its mutation, on the empty name or id 0, with volume `0.00` or
   * unmuted.
   */
  lemma EmptyObjectDefaults(h: Setter)
    ensures var m := Requested(h, map[]);
      (m.VolumeChange? ==> m.volume == "0.00") &&
      (m.MuteChange? ==> !m.muted) &&
      (m.StreamMove? ==> m.app == "0" && m.device == "") &&
      (!m.StreamMove? ==> m.target in {"", "0"})
  {
    assert NoDecimals(0) == "0";
    assert TwoDecimals(0) == "0.00";
  }

  // ---- the handlers

  /**
   * The contract every handler keeps: on an object payload it issues a
   * command requesting exactly the mutation `Requested` reads from the
   * payload, attaches the snapshot and leaves action, status and error as
   * they were; on any other payload it sets its format error and status
   * 4002, leaves the payload unset and issues nothing.
   */
  predicate Handles(h: Setter, msg: Message, res: Response, snapshot: Pactl.Status, o: Outcome) {
    match msg.payload
    case JObj(info) =>
      && o.response == res.(payload := Some(Snapshot(snapshot)))
      && o.issued.Some? && Decode(o.issued.value) == Some(Requested(h, info))
    case _ =>
      o == Outcome(res.(error := FormatError(h), status := StatusActionError), None)
  }

  function Rejected(res: Response, invalid: string): Outcome {
    Outcome(res.(error := invalid, status := StatusActionError), None)
  }

  function Accepted(res: Response, c: Command, snapshot: Pactl.Status): Outcome {
    Outcome(res.(payload := Some(Snapshot(snapshot))), Some(c))
  }

  function HandleSetSinkVolume(msg: Message, res: Response, snapshot: Pactl.Status): (o: Outcome)
    ensures Handles(SinkVolume, msg, res, snapshot, o)
  {
    match msg.payload
    case JObj(info) =>
      Accepted(res, Pactl.SetSinkVolume(StringField(info, "name"), TwoDecimals(NumberField(info, "volume"))), snapshot)
    case _ => Rejected(res, InvalidSinkFormat)
  }

  function HandleSetSinkMuted(msg: Message, res: Response, snapshot: Pactl.Status): (o: Outcome)
    ensures Handles(SinkMuted, msg, res, snapshot, o)
  {
    match msg.payload
    case JObj(info) =>
      Accepted(res, Pactl.SetSinkMuted(StringField(info, "name"), BoolField(info, "muted")), snapshot)
    case _ => Rejected(res, InvalidSinkFormat)
  }

  function HandleSetSinkInputVolume(msg: Message, res: Response, snapshot: Pactl.Status): (o: Outcome)
    ensures Handles(SinkInputVolume, msg, res, snapshot, o)
  {
    match msg.payload
    case JObj(info) =>
      Accepted(res, Pactl.SetSinkInputVolume(NoDecimals(NumberField(info, "id")), TwoDecimals(NumberField(info, "volume"))), snapshot)
    case _ => Rejected(res, InvalidSinkFormat)
  }

  function HandleSetSinkInputMuted(msg: Message, res: Response, snapshot: Pactl.Status): (o: Outcome)
    ensures Handles(SinkInputMuted, msg, res, snapshot, o)
  {
    match msg.payload
    case JObj(info) =>
      Accepted(res, Pactl.SetSinkInputMuted(NoDecimals(NumberField(info, "id")), BoolField(info, "muted")), snapshot)
    case _ => Rejected(res, InvalidSinkFormat)
  }

  function HandleMoveSinkInput(msg: Message, res: Response, snapshot: Pactl.Status): (o: Outcome)
    ensures Handles(SinkInputMove, msg, res, snapshot, o)
  {
    match msg.payload
    case JObj(info) =>
      Accepted(res, Pactl.MoveSinkInput(NoDecimals(NumberField(info, "id")), StringField(info, "name")), snapshot)
    case _ => Rejected(res, InvalidSinkFormat)
  }

  function HandleSetSourceVolume(msg: Message, res: Response, snapshot: Pactl.Status): (o: Outcome)
    ensures Handles(SourceVolume, msg, res, snapshot, o)
  {
    match msg.payload
    case JObj(info) =>
      Accepted(res, Pactl.SetSourceVolume(StringField(info, "name"), TwoDecimals(NumberField(info, "volume"))), snapshot)
    case _ => Rejected(res, InvalidSourceFormat)
  }

  function HandleSetSourceMuted(msg: Message, res: Response, snapshot: Pactl.Status): (o: Outcome)
    ensures Handles(SourceMuted, msg, res, snapshot, o)
  {
    match msg.payload
    case JObj(info) =>
      Accepted(res, Pactl.SetSourceMuted(StringField(info, "name"), BoolField(info, "muted")), snapshot)
    case _ => Rejected(res, InvalidSourceFormat)
  }

  function HandleSetSourceInputVolume(msg: Message, res: Response, snapshot: Pactl.Status): (o: Outcome)
    ensures Handles(SourceInputVolume, msg, res, snapshot, o)
  {
    match msg.payload
    case JObj(info) =>
      Accepted(res, Pactl.SetSourceInputVolume(NoDecimals(NumberField(info, "id")), TwoDecimals(NumberField(info, "volume"))), snapshot)
    case _ => Rejected(res, InvalidSourceFormat)
  }

  function HandleSetSourceInputMuted(msg: Message, res: Response, snapshot: Pactl.Status): (o: Outcome)
    ensures Handles(SourceInputMuted, msg, res, snapshot, o)
  {
    match msg.payload
    case JObj(info) =>
      Accepted(res, Pactl.SetSourceInputMuted(NoDecimals(NumberField(info, "id")), BoolField(info, "muted")), snapshot)
    case _ => Rejected(res, InvalidSourceFormat)
  }

  function HandleMoveSourceOutput(msg: Message, res: Response, snapshot: Pactl.Status): (o: Outcome)
    ensures Handles(SourceOutputMove, msg, res, snapshot, o)
  {
    match msg.payload
    case JObj(info) =>
      Accepted(res, Pactl.MoveSourceOutput(NoDecimals(NumberField(info, "outputId")), StringField(info, "sourceName")), snapshot)
    case _ => Rejected(res, InvalidSourceFormat)
  }

  /** The switch's call of the handler for a setter action. */
  function Handle(h: Setter, msg: Message, res: Response, snapshot: Pactl.Status): (o: Outcome)
    ensures Handles(h, msg, res, snapshot, o)
  {
    match h
    case SinkVolume => HandleSetSinkVolume(msg, res, snapshot)
    case SinkMuted => HandleSetSinkMuted(msg, res, snapshot)
    case SinkInputVolume => HandleSetSinkInputVolume(msg, res, snapshot)
    case SinkInputMuted => HandleSetSinkInputMuted(msg, res, snapshot)
    case SinkInputMove => HandleMoveSinkInput(msg, res, snapshot)
    case SourceVolume => HandleSetSourceVolume(msg, res, snapshot)
    case SourceMuted => HandleSetSourceMuted(msg, res, snapshot)
    case SourceInputVolume => HandleSetSourceInputVolume(msg, res, snapshot)
    case SourceInputMuted => HandleSetSourceInputMuted(msg, res, snapshot)
    case SourceOutputMove => HandleMoveSourceOutput(msg, res, snapshot)
  }
}
