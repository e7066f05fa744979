# pulse-remote: a verified model of the `api/` core

pulse-remote is a small server that gives a browser remote control of a
PulseAudio sound system over a WebSocket. It reads the sound system's state
from the text that `pactl list sinks`, `pactl list sources` and
`pactl list sink-inputs` print, and turns that text into a snapshot of
output devices (sinks), input devices (sources) and playback streams (sink
inputs). A client sends JSON messages naming an action. `GetStatus` is
answered with the snapshot. The ten setter actions run one `pactl`
command each (set a volume, set a mute flag, move a stream) and are answered
with a fresh snapshot. Every other action is answered with an error. A
ticker broadcasts the snapshot to every connected client whenever the
snapshot has changed since the last broadcast.

This Dafny project models that path: the snapshot parser, the command
builder, the handlers and their dispatch switch, the client registry, the
per-connection loop, the broadcast tick, and the response envelope and its
JSON encoding.

| file | module | models |
|---|---|---|
| wrappers.dfy | `Wrappers` | `Option` |
| text.dfy | `Text` | `strings.Split`/`Join`/`Index` and decimal text, which the other modules use |
| commands.dfy | `Commands` | pactl/setVolume.go: the argument lists of `setVolume`, `setMuted` and `moveApp` |
| patterns.dfy | `PactlPatterns` | the regular expressions of api/pactl/pactl.go, as leftmost-first line-based extractors |
| pactl.dfy | `Pactl` | api/pactl/pactl.go: the records, `parseSink`, `parseSources`, `GetSinks`, `GetSources`, `GetSinkInputs`, `GetStatus`, and the ten setters |
| envelope.dfy | `Envelope` | json/json.go: the actions, `AvailableCommands`, the status codes, `Message`, `Response` and `MarshalJSON` |
| handlers.dfy | `Handlers` | api/ws/handlers.go: the ten `handleSet*`/`handleMove*` handlers |
| protocol.dfy | `Protocol` | api/ws/handleWebSocket.go: the client registry, the action switch and the per-connection loop |
| broadcast.dfy | `Broadcast` | api/ws/broadcast.go: one tick of `BroadcastUpdates` |

How the model represents the system:

- A `pactl` command is never run. Its outcome is an input: either the text it printed (`Output`) or an error (`CmdFailed`).
- A mutation is the `Command` value that would be executed. `Commands.Decode` reads that value back as the change it requests.
- A listing is `Listed`, `Failed` (an error return) or `Panicked`. A sink or source block that lacks one of its fields makes the source index a nil match. That is a Go panic, and the model calls it `Panicked`.
- A snapshot section is `None` where the source leaves a nil slice and `Some` of a list otherwise. `reflect.DeepEqual` tells these apart, and so does the model's equality.
- Connections are abstract ids, and the client map is the set of its keys.
- Client input is a sequence of read results. The writes that fail are given as a set. The snapshot is a parameter, or in a session a function of the step.
- Go's 64-bit `strconv.Atoi` is modelled exactly, including the clamped value and the error on overflow.

## Model

| member | source | states |
|---|---|---|
| `Text.Split` | api/pactl/pactl.go:85 | `strings.Split` returns at least one piece, and no piece contains the separator |
| `Text.JoinSplit` | api/pactl/pactl.go:85 | joining the pieces of a split with the separator gives back the original text |
| `Text.SplitJoin` | api/ws/handleWebSocket.go:113 | splitting a join on a one-character separator gives back the parts, when no part contains the separator |
| `Text.SplitCount` | api/pactl/pactl.go:85-90 | a split has one more piece than the separator has non-overlapping occurrences |
| `Text.IntToStringRoundTrip` | api/ws/handlers.go:65 | the decimal text of an integer parses back to that integer |
| `Commands.FormatBool` | pactl/setVolume.go:34-36 | a mute flag is written `"true"` when set and `"false"` otherwise |
| `Commands.SetVolume` | pactl/setVolume.go:16-25 | `set-<kind>-volume`, the target unchanged and `<volume>%`: exactly three arguments, which decode back to that volume change |
| `Commands.SetMuted` | pactl/setVolume.go:33-43 | `set-<kind>-mute`, the target unchanged and the flag: exactly three arguments, which decode back to that mute change |
| `Commands.MoveApp` | pactl/setVolume.go:51-59 | `move-<kind>`, the stream id and the device name: exactly three arguments, which decode back to that move |
| `Commands.IssueDecode` | pactl/setVolume.go:16-59 | every command that decodes to a mutation is the command built for that mutation, so the builders are injective |
| `PactlPatterns.PercentOnLine` | api/pactl/pactl.go:60 | `.+?(\d+)%` finds the first `%`-terminated digit run on the same line after the gap, and no earlier one exists |
| `PactlPatterns.QuoteOnLine` | api/pactl/pactl.go:102 | `(.*?)"` stops at the first quote on the line, and finds none if the line has none |
| `PactlPatterns.FirstStart` | api/pactl/pactl.go:102 | the leftmost position from which the whole pattern matches, and none before it |
| `PactlPatterns.MatchFrom` | api/pactl/pactl.go:102 | the leftmost-first match of a multi-part pattern: every part matches, in order, starting at the leftmost possible position, and the later parts are themselves the leftmost-first match from the end of the first |
| `PactlPatterns.Find` | api/pactl/pactl.go:63-67 | `FindStringSubmatch` of a one-part pattern: a match at its position, and no match at any earlier position |
| `PactlPatterns.FindIsMatchFrom` | api/pactl/pactl.go:57-61 | the one-part search agrees with the general leftmost-first search |
| `PactlPatterns.PartsOrdered` | api/pactl/pactl.go:102 | the parts of a match lie in order within the text |
| `PactlPatterns.FindAll` | api/pactl/pactl.go:106 | `FindAllStringSubmatch`: every element is a match, and the matches do not overlap and come in order |
| `PactlPatterns.FindAllLeftmost` | api/pactl/pactl.go:106 | each match is the leftmost one after the end of the previous match, and none is left after the last |
| `PactlPatterns.FindRestOfLine` | api/pactl/pactl.go:58-59 | `Name: (.+)` captures the rest of the line after the first label that has a non-empty rest of line |
| `PactlPatterns.FindNumber` | api/pactl/pactl.go:57 | `Sink #(\d+)` captures the whole digit run after the first label that is followed by a digit |
| `PactlPatterns.FindMute` | api/pactl/pactl.go:61 | `Mute: (yes\|no)` captures `yes` exactly when the first such line says `yes` |
| `PactlPatterns.FindPercent` | api/pactl/pactl.go:60 | `Volume: .+?(\d+)%` captures the digit run before the first `%` on the first `Volume: ` line that has one, at least one character after the label |
| `Pactl.InRange` | api/pactl/pactl.go:110-121 | a magnitude is in the 64-bit range or is clamped to its bound with an error |
| `Pactl.Atoi` | api/pactl/pactl.go:110-121 | `strconv.Atoi`: accepts only an optionally signed digit string, with the value in the 64-bit range; clamps and errors on overflow; an error with the clamped value as soon as the leading digits exceed `MaxUint64`, even before a non-digit; otherwise 0 with an error for anything else |
| `Pactl.OverflowBeforeSyntax` | api/pactl/pactl.go:110-121 | a sign, digits beyond `MaxUint64` and then a non-digit give the clamped value with an error, not 0 |
| `Pactl.SyntaxAfterDigits` | api/pactl/pactl.go:110-121 | a sign, digits within `MaxUint64` and then a non-digit give 0 with an error |
| `Pactl.AtoiEarlyRange` | api/pactl/pactl.go:110-121 | `99999999999999999999x` converts to `MaxInt` and `-99999999999999999999x` to `MinInt`, both with an error |
| `Pactl.AtoiWideSyntax` | api/pactl/pactl.go:110-121 | `9223372036854775808x`, above `MaxInt` but within `MaxUint64`, converts to 0 with an error |
| `Pactl.AtoiItoa` | api/pactl/pactl.go:66 | every in-range integer's decimal text converts back to it without error |
| `Pactl.Capture` | api/pactl/pactl.go:63-67 | field `[1]` of a match exists exactly when the pattern matches; a number is a non-empty digit string, and a mute word is `yes` or `no` |
| `Pactl.ParseSink` | api/pactl/pactl.go:56-76 | a record exactly when all five fields are found; the id and volume are the converted digits, name and label are the captured lines, and muted means the first mute word is `yes` |
| `Pactl.ParseSource` | api/pactl/pactl.go:134-159 | as `ParseSink`, plus the monitor line; `Monitored` exactly when the monitor is not `n/a` |
| `Pactl.Prefixed` | api/pactl/pactl.go:88-89 | every piece after the first, with the marker put back in front |
| `Pactl.ParseEach` | api/pactl/pactl.go:88-90 | every block parsed in order, or a panic if some block lacks a field |
| `Pactl.AppendParsed` | api/pactl/pactl.go:85-92 | the append loop returns exactly `ParseEach` of the marked blocks |
| `Pactl.GetSinks` | api/pactl/pactl.go:78-93 | the result is `SinksOf` of the command outcome: an error gives no list |
| `Pactl.GetSources` | api/pactl/pactl.go:161-176 | the result is `SourcesOf` of the command outcome |
| `Pactl.SinkInputOf` | api/pactl/pactl.go:109-128 | a record exactly when `Atoi` accepts the id, the sink id and the volume; the label is the application name, and muted means the capture is `yes` |
| `Pactl.SinkInputMatches` | api/pactl/pactl.go:102-106 | every match has the five parts of the compound pattern, all matching |
| `Pactl.ConvertEach` | api/pactl/pactl.go:108-131 | every match converted in order, or nothing if one conversion fails |
| `Pactl.ConvertAll` | api/pactl/pactl.go:108-131 | the preallocated-slice loop returns exactly `ConvertEach` |
| `Pactl.GetSinkInputs` | api/pactl/pactl.go:95-132 | the result is `SinkInputsOf` of the command outcome |
| `Pactl.Section` | api/pactl/pactl.go:212-217 | a section is set exactly when its listing succeeded, and then holds its records |
| `Pactl.StatusOf` | api/pactl/pactl.go:192-218 | a failed listing empties only its own section; the others and the build info are filled; the call panics exactly when a sink or source block lacks a field |
| `Pactl.GetStatus` | api/pactl/pactl.go:192-218 | the straight-line composition returns exactly `StatusOf` |
| `Pactl.SetSinkVolume` | api/pactl/pactl.go:14-16 | passes kind `sink` to `setVolume` |
| `Pactl.SetSinkMuted` | api/pactl/pactl.go:18-20 | passes kind `sink` to `setMuted` |
| `Pactl.SetSinkInputVolume` | api/pactl/pactl.go:22-24 | passes kind `sink-input` to `setVolume` |
| `Pactl.SetSinkInputMuted` | api/pactl/pactl.go:26-28 | passes kind `sink-input` to `setMuted` |
| `Pactl.MoveSinkInput` | api/pactl/pactl.go:30-33 | passes kind `sink-input` to `moveApp` |
| `Pactl.SetSourceVolume` | api/pactl/pactl.go:35-37 | passes kind `source` to `setVolume` |
| `Pactl.SetSourceMuted` | api/pactl/pactl.go:39-42 | passes kind `source` to `setMuted` |
| `Pactl.SetSourceInputVolume` | api/pactl/pactl.go:44-46 | passes kind `source-input` to `setVolume` |
| `Pactl.SetSourceInputMuted` | api/pactl/pactl.go:48-50 | passes kind `source-input` to `setMuted` |
| `Pactl.MoveSourceOutput` | api/pactl/pactl.go:52-54 | passes kind `source-output` to `moveApp` |
| `Pactl.SinksPerMarker` | api/pactl/pactl.go:85-92 | `GetSinks` gives one record per occurrence of `Sink #`, in input order, the i-th parsed from the text after the i-th marker |
| `Pactl.SourcesPerMarker` | api/pactl/pactl.go:168-175 | `GetSources` gives one record per occurrence of `Source #`, in input order |
| `Pactl.ListingsWithoutMarker` | api/pactl/pactl.go:85-92 | a listing without its marker gives an empty list, not a nil one and not a panic |
| `Pactl.BlocksDropLeadingText` | api/pactl/pactl.go:85-89 | whatever precedes the first occurrence of the marker, `#` included, belongs to no block |
| `Pactl.LeadingTextDropped` | api/pactl/pactl.go:85-92 | any text before the first `Sink #` or `Source #` is dropped from the sinks and the sources |
| `Pactl.MissingFieldPanics` | api/pactl/pactl.go:63-67 | one block without all of its fields makes the whole listing panic |
| `Pactl.MarkerOnlyAtStart` | api/pactl/pactl.go:85-89 | in a block, the marker occurs only at its start |
| `Pactl.IdAfterMarker` | api/pactl/pactl.go:57 | a block's id is the digit run right after its marker, and is missing when no digit follows |
| `Pactl.BlockIds` | api/pactl/pactl.go:57-63 | the id of the i-th sink or source block is the digit run right after the i-th marker |
| `Pactl.SinkInputFieldOrder` | api/pactl/pactl.go:102 | the five captures of a sink-input match lie in the order id, `Sink:`, `Mute:`, `Volume:`, `application.name` |
| `Pactl.SinkInputsPerMatch` | api/pactl/pactl.go:106-128 | `GetSinkInputs` gives exactly one record per match, in order, each converted from its match |
| `Pactl.SinkInputConversionFails` | api/pactl/pactl.go:110-121 | a match that does not convert makes `GetSinkInputs` return an error and no list |
| `Pactl.ConversionFails` | api/pactl/pactl.go:110-121 | a match does not convert exactly when `Atoi` rejects its id, its sink id or its volume |
| `Envelope.AvailableCommandsDistinct` | json/json.go:37-63 | twelve actions, pairwise distinct, in declaration order |
| `Envelope.StatusCodesDistinct` | json/json.go:86-92 | the five status codes are 4000 to 4004 and distinct |
| `Envelope.EscapeChar` | json/json.go:94-109 | a character is written as itself exactly when it is plain, and otherwise as a backslash escape, as `encoding/json` writes it |
| `Envelope.EscapeSafe` | json/json.go:94-109 | an escaped string holds no raw control character and none of `<`, `>` and `&` |
| `Envelope.EscapePlain` | json/json.go:94-109 | a string of plain characters is written unchanged |
| `Envelope.EscapeRoundTrip` | json/json.go:94-109 | unescaping an escaped string gives the string back |
| `Envelope.Members` | json/json.go:94-109 | `action` first and `status` last, always; `error` only when non-empty, and `payload` only when set |
| `Envelope.KeyOrder` | json/json.go:95-106 | the four keys in Go's sorted-map-key order |
| `Envelope.KeysPresentSorted` | json/json.go:95-106 | whichever optional keys are present, the keys come in strictly increasing order |
| `Envelope.MembersSorted` | json/json.go:94-108 | every key is one of the four, and the keys are in strictly increasing order, as Go writes a map |
| `Envelope.MembersPresent` | json/json.go:100-106 | `payload` is present exactly when the payload is set, `error` exactly when the error is non-empty, each with its value |
| `Envelope.MarshalJSON` | json/json.go:94-109 | the result is one JSON object, enclosed in braces |
| `Envelope.QuotePlain` | json/json.go:94-109 | a string of plain characters is quoted as it is |
| `Envelope.KeysNeedNoEscape` | json/json.go:95-106 | the four keys are written without escapes |
| `Envelope.MarshalPayload` | json/json.go:94-109 | any payload (text or snapshot) without an error gives exactly `{"action":…,"payload":…,"status":…}`, the payload encoded as a string or as the snapshot's JSON |
| `Envelope.MarshalError` | json/json.go:94-109 | an error without a payload gives exactly `{"action":…,"error":…,"status":…}` |
| `Envelope.MarshalPayloadExample` | api/json/json_test.go:8-18 | gives exactly `{"action":"GetStatus","payload":"test payload","status":4000}` |
| `Envelope.MarshalErrorExample` | api/json/json_test.go:20-30 | gives exactly `{"action":"GetStatus","error":"test error","status":4001}` |
| `Handlers.TwoDecimalsReadBack` | api/ws/handlers.go:23 | `%.2f` of a whole volume ends in `.00`, and the text before that parses back to the volume |
| `Handlers.TwoDecimalsExample` | api/ws/handlers.go:23 | a volume of 55 is sent as `55.00` |
| `Handlers.NoDecimalsReadBack` | api/ws/handlers.go:65 | `%.0f` of a whole stream id parses back to the id |
| `Handlers.HandlersServeSetters` | json/json.go:37-63 | the first two actions are `GetStatus` and `GetBuildInfo`; the other ten are the ten handlers' actions in order, one action per handler |
| `Handlers.RequestedKind` | api/ws/handlers.go:11-220 | a handler with the sink error message targets a sink or sink input; one with the source error message targets a source, source input or source output |
| `Handlers.EmptyObjectDefaults` | api/ws/handlers.go:13-23 | an object without the fields still issues the command, with the zero values `""`, 0 and false |
| `Handlers.HandleSetSinkVolume` | api/ws/handlers.go:11-30 | a non-object payload gives status 4002, the sink error and no command; an object issues `set-sink-volume` on its `name` with `volume` as `%.2f` and attaches the snapshot, leaving status and error alone |
| `Handlers.HandleSetSinkMuted` | api/ws/handlers.go:32-51 | as above, with `set-sink-mute` and the `muted` flag |
| `Handlers.HandleSetSinkInputVolume` | api/ws/handlers.go:53-72 | as above, with `set-sink-input-volume`, the `id` as `%.0f` and the volume |
| `Handlers.HandleSetSinkInputMuted` | api/ws/handlers.go:74-93 | as above, with `set-sink-input-mute`, the `id` and the flag |
| `Handlers.HandleMoveSinkInput` | api/ws/handlers.go:95-114 | as above, with `move-sink-input` of the `id` to the sink `name` |
| `Handlers.HandleSetSourceVolume` | api/ws/handlers.go:117-136 | as above, with the source error message and `set-source-volume` |
| `Handlers.HandleSetSourceMuted` | api/ws/handlers.go:138-157 | as above, with `set-source-mute` |
| `Handlers.HandleSetSourceInputVolume` | api/ws/handlers.go:159-178 | as above, with `set-source-input-volume` on the `id` |
| `Handlers.HandleSetSourceInputMuted` | api/ws/handlers.go:180-199 | as above, with `set-source-input-mute` on the `id` |
| `Handlers.HandleMoveSourceOutput` | api/ws/handlers.go:201-220 | as above, with `move-source-output` of `outputId` to `sourceName` |
| `Handlers.Handle` | api/ws/handleWebSocket.go:84-110 | each setter case calls its own handler, with the behaviour stated for that handler |
| `Protocol.Registry.constructor` | api/ws/handleWebSocket.go:16 | the registry starts empty |
| `Protocol.Registry.Add` | api/ws/handleWebSocket.go:30-33 | the connection is inserted, and a new connection grows the registry by one |
| `Protocol.Registry.Remove` | api/ws/handleWebSocket.go:51-58 | only that connection leaves; the other entries are unchanged |
| `Protocol.SetterFor` | api/ws/handleWebSocket.go:77-110 | the case an action selects serves that action, and an action without a case matches no handler |
| `Protocol.SetterForSetters` | api/ws/handleWebSocket.go:77-115 | the switch has a setter case for exactly the ten setter actions of `AvailableCommands` |
| `Protocol.Dispatch` | api/ws/handleWebSocket.go:71-115 | every reply echoes the action; `GetStatus` gives 4000 and the snapshot; a setter behaves as its handler on a fresh response; anything else gives 4002 and the list of actions |
| `Protocol.DispatchIssues` | api/ws/handleWebSocket.go:77-115 | a command is issued exactly when the action is a setter and the payload is an object, and it requests the mutation the payload describes |
| `Protocol.DispatchStatus` | api/ws/handleWebSocket.go:72-115 | a reply's status is 4000 unless the action has no case or its payload is not an object, which give 4002 |
| `Protocol.BuildInfoNotRouted` | api/ws/handleWebSocket.go:112-114 | `GetBuildInfo` is an available action, yet it gets the unrecognised-action reply |
| `Protocol.ActionsWithoutSpaces` | json/json.go:9-35 | no action name contains a space |
| `Protocol.CommandNotFoundLists` | api/ws/handleWebSocket.go:113 | the error is the fixed prefix followed by all actions joined by single spaces; splitting that list on spaces gives `AvailableCommands` back |
| `Protocol.Answered` | api/ws/handleWebSocket.go:61-123 | the number of replies: all of them answer successfully read messages, only the last write may fail, and answering stops at a failed read or after a failed write |
| `Protocol.RepliesStep` | api/ws/handleWebSocket.go:116-122 | answering one more message appends exactly its reply |
| `Protocol.Session` | api/ws/handleWebSocket.go:19-124 | the first message is a `GetStatus`, status 4000, with the snapshot; then exactly one reply per successfully read message, in order, until a read or write fails; on exit only this connection is removed |
| `Broadcast.TickOf` | api/ws/broadcast.go:20-60 | a tick sends exactly when there is a client and the response differs from `prevRes`; otherwise nothing changes; when it sends, `prevRes` becomes the response, the registry loses exactly the failed writes, and `updatedClients` counts the rest, so it is at most the registry size |
| `Broadcast.BroadcastShape` | api/ws/broadcast.go:31-36 | a broadcast is always a `GetStatus` with status 4000, the snapshot and no error |
| `Broadcast.FirstTickBroadcasts` | api/ws/broadcast.go:12 | `prevRes` starts as the zero response, so the first tick with a client always broadcasts |
| `Broadcast.SecondTickIdle` | api/ws/broadcast.go:38-43 | two ticks in a row on an unchanged snapshot, with a client left for the second: the second tick sends nothing and changes nothing |
| `Broadcast.Broadcaster.constructor` | api/ws/broadcast.go:12 | `prevRes` starts as the zero response |
| `Broadcast.Broadcaster.Tick` | api/ws/broadcast.go:20-60 | the new `prevRes`, registry, response sent and `updatedClients` are exactly `TickOf`'s; with nothing sent no write is attempted, otherwise every connection in the registry gets exactly one write attempt |
| `Broadcast.WriteAll` | api/ws/broadcast.go:50-60 | one write attempt per registered connection, none repeated; the registry ends as it was minus the failed writes, and the counter equals the number of successful writes |

## Left out

- Process execution (`exec.Command`, `cmd.Output`, `CombinedOutput`) and `ListenForChanges`, because they are external subprocess I/O. Command output is an input, and a mutation is the argument list it would run.
- The logging of failed commands in pactl/setVolume.go and the `logger` packages, because they are observability only: the setters return nothing either way.
- Concurrency, because the model is sequential. This covers the mutexes, ws/safeWriteJson.go, the ticker and the 10-second write deadline in api/ws/broadcast.go. One tick and one connection are modelled.
- The WebSocket upgrade, `ReadJSON` decoding and `WriteJSON`, because they are network I/O. What a read yields is an input `Read`, with a message that fails to decode counted as a failed read, and the writes that fail are an input.
- Broadcast.WriteAll: Go's map iteration order is unspecified, so the model picks the next connection arbitrarily. It only states that each connection gets one attempt, not in which order.
- Protocol.Session: a failure to write the initial snapshot is only logged by the source, so it is not an outcome here.
- Protocol.Session and Broadcast.Broadcaster.Tick: the snapshot is a parameter, not a call to `GetStatus`. So the panic that `Pactl.StatusOf` reports as `None` is not propagated to the WebSocket layer.
- Handlers.TwoDecimals / Handlers.NoDecimals: JSON numbers are modelled as integers, so `%.2f` and `%.0f` are stated for whole numbers only. Floating-point formatting and rounding are not modelled.
- Envelope.PayloadText: the JSON encoding of a snapshot (`Status` and its records) is a parameter `encodeStatus`. Only the envelope and string payloads are encoded by the model.
- Envelope.Unescape: it reads back only the escapes `Escape` writes. It is the partner of the encoder, not a full JSON decoder, and UTF-16 surrogate pairs are not modelled.
- `buildinfo.Get()` is not part of this model. The build information is an opaque `BuildInfo` map, carried unchanged into the snapshot.
- `utils.ActionsToStrings` is not part of this model. It is taken to map each action to its own string.
- api/json/json.go is not part of this model. The WebSocket layer imports it, and json/json.go, which defines the same actions, codes and `MarshalJSON`, is modelled in its place.
- api/json/jsonSchema.go, json/jsonSchema.go, their tests, main.go, ws/corsOrigin.go and audiodeprecated/audio.go, because they are schema generation by reflection, HTTP routing and a client-library wrapper, outside the message path.
- The root-level wsEndpoint.go and json.go, and the root copies ws/handlers.go, ws/handleWebSocket.go, pactl/pactl.go and pactl/types.go, because they are superseded versions that main.go does not import. Only pactl/setVolume.go, which api/pactl/pactl.go calls, is modelled from that tree.
- The record field names follow the constructors in api/pactl/pactl.go, not the older names in api/pactl/types.go.
- The model follows the code as written:
  - a payload of the wrong shape gets status 4002 (unrecognised action), not 4003 (malformed payload);
  - a sink or source block that lacks a field panics; it is neither dropped nor given default values;
  - `GetStatus` does not return at all in that case.
