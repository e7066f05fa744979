/**
 * The device controller of pactl/setVolume.go: each mutation is one `pactl`
 * invocation with a three-element argument list. Running it is not modelled;
 * its outcome is only logged by the source, so none of these functions has a
 * result other than the command it issues.
 */
module Commands {
  import opened Wrappers
  import opened Text

  /** One external invocation: the program and its argument list. */
  datatype Command = Command(program: string, args: seq<string>)

  /** What a command asks the audio server to do, as read back from its arguments. */
  datatype Mutation =
    | VolumeChange(kind: string, target: string, volume: string)
    | MuteChange(kind: string, target: string, muted: bool)
    | StreamMove(kind: string, app: string, device: string)

  const Program := "pactl"

  /** Go's `strconv.FormatBool`. */
  function FormatBool(b: bool): (s: string)
    ensures s == "true" || s == "false"
    ensures (s == "true") == b
  {
    if b then "true" else "false"
  }

  /** `setVolume(kind, nameOrID, volume)`: `pactl set-<kind>-volume <nameOrID> <volume>%`. */
  function SetVolume(kind: string, nameOrID: string, volume: string): (c: Command)
    ensures c.program == Program && |c.args| == 3 && c.args[1] == nameOrID
    ensures Decode(c) == Some(VolumeChange(kind, nameOrID, volume))
  {
    Command(Program, ["set-" + kind + "-volume", nameOrID, volume + "%"])
  }

  /** `setMuted(kind, nameOrID, muted)`: `pactl set-<kind>-mute <nameOrID> true|false`. */
  function SetMuted(kind: string, nameOrID: string, muted: bool): (c: Command)
    ensures c.program == Program && |c.args| == 3 && c.args[1] == nameOrID
    ensures Decode(c) == Some(MuteChange(kind, nameOrID, muted))
  {
    Command(Program, ["set-" + kind + "-mute", nameOrID, FormatBool(muted)])
  }

  /** `moveApp(kind, appID, deviceName)`: `pactl move-<kind> <appID> <deviceName>`. */
  function MoveApp(kind: string, appID: string, deviceName: string): (c: Command)
    ensures c.program == Program && |c.args| == 3 && c.args[1] == appID && c.args[2] == deviceName
    ensures Decode(c) == Some(StreamMove(kind, appID, deviceName))
  {
    var verb := "move-" + kind;
    assert verb[0] == 'm' && !HasPrefix(verb, "set-");
    Command(Program, [verb, appID, deviceName])
  }

  /** The command that carries out a mutation. */
  function Issue(m: Mutation): Command {
    match m
    case VolumeChange(kind, target, volume) => SetVolume(kind, target, volume)
    case MuteChange(kind, target, muted) => SetMuted(kind, target, muted)
    case StreamMove(kind, app, device) => MoveApp(kind, app, device)
  }

  predicate HasPrefix(s: string, p: string) {
    |p| <= |s| && s[..|p|] == p
  }

  predicate HasSuffix(s: string, p: string) {
    |p| <= |s| && s[|s| - |p|..] == p
  }

  /** Reads a `pactl` argument list back into the mutation it requests. */
  function Decode(c: Command): Option<Mutation> {
    if c.program != Program || |c.args| != 3 then None
    else
      var verb, target, value := c.args[0], c.args[1], c.args[2];
      if |verb| >= 11 && HasPrefix(verb, "set-") && HasSuffix(verb, "-volume") && HasSuffix(value, "%") then
        Some(VolumeChange(verb[4..|verb| - 7], target, value[..|value| - 1]))
      else if |verb| >= 9 && HasPrefix(verb, "set-") && HasSuffix(verb, "-mute") && (value == "true" || value == "false") then
        Some(MuteChange(verb[4..|verb| - 5], target, value == "true"))
      else if HasPrefix(verb, "move-") then
        Some(StreamMove(verb[5..], target, value))
      else None
  }

  /** Distinct mutations never share a command: every decodable command is the one its mutation issues. */
  lemma IssueDecode(c: Command)
    requires Decode(c).Some?
    ensures Issue(Decode(c).value) == c
  {
    var verb, value := c.args[0], c.args[2];
    match Decode(c).value
    case VolumeChange(kind, _, v) =>
      assert verb == "set-" + kind + "-volume" by {
        assert verb == verb[..4] + verb[4..|verb| - 7] + verb[|verb| - 7..];
      }
      assert value == v + "%" by {
        assert value == value[..|value| - 1] + value[|value| - 1..];
      }
      assert Issue(Decode(c).value).args == c.args;
    case MuteChange(kind, _, muted) =>
      assert verb == "set-" + kind + "-mute" by {
        assert verb == verb[..4] + verb[4..|verb| - 5] + verb[|verb| - 5..];
      }
      assert Issue(Decode(c).value).args == c.args;
    case StreamMove(kind, _, _) =>
      assert verb == "move-" + kind by {
        assert verb == verb[..5] + verb[5..];
      }
      assert Issue(Decode(c).value).args == c.args;
  }
}
