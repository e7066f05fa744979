/**
 * The wire format of json/json.go: the action names a client may send, the
 * status codes, the decoded client message, and the response envelope with
 * its `MarshalJSON`, which writes `action` and `status` always, `payload`
 * only when it is set and `error` only when it is non-empty, as a Go map and
 * therefore with its keys in sorted order.
 */
module Envelope {
  import opened Wrappers
  import opened Text
  import Pactl

  /** Go's `int16`, the type of the status code. */
  newtype Int16 = x: int | -0x8000 <= x < 0x8000

  // ---- actions

  const ActionGetStatus := "GetStatus"
  const ActionGetBuildInfo := "GetBuildInfo"
  const ActionSetSinkVolume := "SetSinkVolume"
  const ActionSetSinkMuted := "SetSinkMuted"
  const ActionSetSinkInputVolume := "SetSinkInputVolume"
  const ActionSetSinkInputMuted := "SetSinkInputMuted"
  const ActionMoveSinkInput := "MoveSinkInput"
  const ActionSetSourceVolume := "SetSourceVolume"
  const ActionSetSourceMuted := "SetSourceMuted"
  const ActionSetSourceInputVolume := "SetSourceInputVolume"
  const ActionSetSourceInputMuted := "SetSourceInputMuted"
  const ActionMoveSourceOutput := "MoveSourceOutput"

  /** `AvailableCommands`, in declaration order. */
  const AvailableCommands: seq<string> := [
    ActionGetStatus, ActionGetBuildInfo,
    ActionSetSinkVolume, ActionSetSinkMuted,
    ActionSetSinkInputVolume, ActionSetSinkInputMuted, ActionMoveSinkInput,
    ActionSetSourceVolume, ActionSetSourceMuted,
    ActionSetSourceInputVolume, ActionSetSourceInputMuted, ActionMoveSourceOutput
  ]

  /** The twelve actions are distinct, so each names one operation. */
  lemma AvailableCommandsDistinct()
    ensures |AvailableCommands| == 12
    ensures forall i, j :: 0 <= i < j < |AvailableCommands| ==> AvailableCommands[i] != AvailableCommands[j]
  {
  }

  // ---- status codes

  const StatusSuccess: Int16 := 4000
  const StatusError: Int16 := 4001
  const StatusActionError: Int16 := 4002
  const StatusPayloadError: Int16 := 4003
  const StatusErrorInvalidJSON: Int16 := 4004

  /** The status codes are the five consecutive values from 4000. */
  lemma StatusCodesDistinct()
    ensures [StatusSuccess, StatusError, StatusActionError, StatusPayloadError, StatusErrorInvalidJSON] ==
            [4000, 4001, 4002, 4003, 4004]
  {
  }

  // ---- messages and responses

  /**
   * A JSON value as `encoding/json` decodes it into an `interface{}`: objects
   * become maps, and numbers are kept as integers here.
   */
  datatype Json =
    | JNull
    | JBool(b: bool)
    | JNum(n: int)
    | JStr(s: string)
    | JArr(items: seq<Json>)
    | JObj(fields: map<string, Json>)

  /** A request from a client; an absent payload decodes as `JNull`. */
  datatype Message = Message(action: string, payload: Json)

  /** What a response carries: a snapshot from `GetStatus`, or a plain string. */
  datatype Payload = Snapshot(status: Pactl.Status) | Text(text: string)

  /** `Response`; a nil `Payload` is `None`. */
  datatype Response = Response(action: string, status: Int16, payload: Option<Payload>, error: string)

  // ---- string encoding

  /** A lower-case hex digit. */
  function HexDigit(d: nat): (c: char)
    requires d < 16
  {
    if d < 10 then ('0' as int + d) as char else ('a' as int + d - 10) as char
  }

  function HexValue(c: char): (r: Option<nat>)
    ensures r.Some? ==> r.value < 16
  {
    if '0' <= c <= '9' then Some(c as int - '0' as int)
    else if 'a' <= c <= 'f' then Some(c as int - 'a' as int + 10)
    else if 'A' <= c <= 'F' then Some(c as int - 'A' as int + 10)
    else None
  }

  /** `\uXXXX` with lower-case hex digits. */
  function UnicodeEscape(v: nat): (e: string)
    requires v < 0x1_0000
    ensures |e| == 6 && e[0] == '\\' && e[1] == 'u'
  {
    "\\u" + [HexDigit(v / 16 / 16 / 16), HexDigit(v / 16 / 16 % 16), HexDigit(v / 16 % 16), HexDigit(v % 16)]
  }

  /** The characters `encoding/json` writes as they are, with HTML escaping on. */
  predicate Plain(c: char) {
    c as int >= 0x20 && c != '"' && c != '\\' && c != '<' && c != '>' && c != '&' &&
    c as int != 0x2028 && c as int != 0x2029
  }

  /**
   * How `encoding/json` writes one character inside a string: short escapes
   * for the quote, the backslash, backspace, form feed, newline, carriage
   * return and tab, `\u00XX` for the other control characters and for `<`,
   * `>` and `&`, `\u2028` and `\u2029` for the line and paragraph separators,
   * and every other character as it is.
   */
  function EscapeChar(c: char): (e: string)
    ensures |e| > 0
    ensures Plain(c) <==> e == [c]
    ensures !Plain(c) ==> e[0] == '\\'
  {
    if c == '"' then "\\\""
    else if c == '\\' then "\\\\"
    else if c as int == 8 then "\\b"
    else if c as int == 12 then "\\f"
    else if c == '\n' then "\\n"
    else if c == '\r' then "\\r"
    else if c == '\t' then "\\t"
    else if !Plain(c) then UnicodeEscape(c as int)
    else [c]
  }

  function Concat(xs: seq<string>): string {
    if xs == [] then "" else xs[0] + Concat(xs[1..])
  }

  /** The characters of `s`, each written as `EscapeChar` writes it. */
  function Escape(s: string): string {
    Concat(seq(|s|, i requires 0 <= i < |s| => EscapeChar(s[i])))
  }

  /** Escaping goes character by character. */
  lemma EscapeCons(s: string)
    requires s != []
    ensures Escape(s) == EscapeChar(s[0]) + Escape(s[1..])
  {
    var xs := seq(|s|, i requires 0 <= i < |s| => EscapeChar(s[i]));
    assert xs[1..] == seq(|s[1..]|, i requires 0 <= i < |s[1..]| => EscapeChar(s[1..][i]));
  }

  /** No control character is written raw, and neither are `<`, `>` and `&`. */
  lemma {:induction false} EscapeSafe(s: string)
    ensures forall i :: 0 <= i < |Escape(s)| ==> Escape(s)[i] as int >= 0x20
    ensures forall i :: 0 <= i < |Escape(s)| ==> Escape(s)[i] !in {'<', '>', '&'}
  {
    if s != [] {
      EscapeCons(s);
      EscapeSafe(s[1..]);
      var head := EscapeChar(s[0]);
      assert forall i :: 0 <= i < |head| ==> head[i] as int >= 0x20 && head[i] !in {'<', '>', '&'};
    }
  }

  /** A string as a JSON string literal. */
  function Quote(s: string): string {
    "\"" + Escape(s) + "\""
  }

  /** A string of plain characters is written as it is. */
  lemma {:induction false} EscapePlain(s: string)
    requires forall i :: 0 <= i < |s| ==> Plain(s[i])
    ensures Escape(s) == s
  {
    if s != [] {
      EscapeCons(s);
      EscapePlain(s[1..]);
    }
  }

  // ---- reading a string back

  function ShortEscape(c: char): Option<char> {
    if c == '"' then Some('"')
    else if c == '\\' then Some('\\')
    else if c == '/' then Some('/')
    else if c == 'b' then Some(8 as char)
    else if c == 'f' then Some(12 as char)
    else if c == 'n' then Some('\n')
    else if c == 'r' then Some('\r')
    else if c == 't' then Some('\t')
    else None
  }

  function Hex4(h: string): (r: Option<nat>)
    requires |h| == 4
    ensures r.Some? ==> r.value < 0x1_0000
  {
    var a, b, c, d := HexValue(h[0]), HexValue(h[1]), HexValue(h[2]), HexValue(h[3]);
    if a.None? || b.None? || c.None? || d.None? then None
    else Some(((a.value * 16 + b.value) * 16 + c.value) * 16 + d.value)
  }

  function Prepend(c: char, r: Option<string>): Option<string> {
    if r.None? then None else Some([c] + r.value)
  }

  /**
   * The body of a JSON string literal read back into its characters, or
   * `None` where it holds a raw quote or control character or a malformed
   * escape. Surrogate escapes are not accepted.
   */
  function Unescape(t: string): Option<string>
    decreases |t|
  {
    if t == [] then Some("")
    else if t[0] == '\\' then
      if |t| < 2 then None
      else if ShortEscape(t[1]).Some? then Prepend(ShortEscape(t[1]).value, Unescape(t[2..]))
      else if t[1] == 'u' && |t| >= 6 && Hex4(t[2..6]).Some? then
        var v := Hex4(t[2..6]).value;
        if 0xD800 <= v < 0xE000 then None else Prepend(v as char, Unescape(t[6..]))
      else None
    else if t[0] == '"' || t[0] as int < 0x20 then None
    else Prepend(t[0], Unescape(t[1..]))
  }

  lemma HexRoundTrip(v: nat)
    requires v < 0x1_0000
    ensures Hex4(UnicodeEscape(v)[2..6]) == Some(v)
  {
    var e := UnicodeEscape(v);
    var q1, q2 := v / 16, v / 16 / 16;
    HexDigitValue(q2 / 16);
    HexDigitValue(q2 % 16);
    HexDigitValue(q1 % 16);
    HexDigitValue(v % 16);
    assert v == q1 * 16 + v % 16 && q1 == q2 * 16 + q1 % 16 && q2 == q2 / 16 * 16 + q2 % 16;
  }

  lemma HexDigitValue(d: nat)
    requires d < 16
    ensures HexValue(HexDigit(d)) == Some(d)
  {
  }

  /** Reading an escaped character back gives the character, whatever follows. */
  lemma UnescapeChar(c: char, rest: string)
    ensures Unescape(EscapeChar(c) + rest) == Prepend(c, Unescape(rest))
  {
    var t := EscapeChar(c) + rest;
    if Plain(c) {
      assert t[0] == c && t[1..] == rest;
    } else if c == '"' || c == '\\' || c as int == 8 || c as int == 12 || c == '\n' || c == '\r' || c == '\t' {
      assert t[0] == '\\' && t[2..] == rest;
    } else {
      var v := c as int;
      HexRoundTrip(v);
      assert t[..6] == UnicodeEscape(v);
      assert t[2..6] == UnicodeEscape(v)[2..6];
      assert t[6..] == rest;
      assert ShortEscape(t[1]).None?;
    }
  }

  /** Every string survives being written as a JSON string and read back. */
  lemma {:induction false} EscapeRoundTrip(s: string)
    ensures Unescape(Escape(s)) == Some(s)
  {
    if s != [] {
      EscapeCons(s);
      EscapeRoundTrip(s[1..]);
      UnescapeChar(s[0], Escape(s[1..]));
      assert [s[0]] + s[1..] == s;
    }
  }

  // ---- the envelope

  /** One key of the envelope and the JSON text of its value. */
  datatype Member = Member(key: string, value: string)

  /** Strict lexicographic order on code points: Go's order on the UTF-8 bytes of map keys. */
  predicate Below(a: string, b: string) {
    if a == [] then b != []
    else if b == [] then false
    else a[0] < b[0] || (a[0] == b[0] && Below(a[1..], b[1..]))
  }

  predicate HasKey(ms: seq<Member>, k: string) {
    exists i :: 0 <= i < |ms| && ms[i].key == k
  }

  /** The JSON text of a payload; the encoding of a snapshot is a parameter. */
  function PayloadText(p: Payload, encodeStatus: Pactl.Status -> string): string {
    match p
    case Snapshot(st) => encodeStatus(st)
    case Text(s) => Quote(s)
  }

  /**
   * The keys `MarshalJSON` puts in its map, in the sorted order Go writes
   * them: `action` first and `status` last always, with `error` and then
   * `payload` between them when they are set.
   */
  function Members(r: Response, encodeStatus: Pactl.Status -> string): (ms: seq<Member>)
    ensures |ms| == 2 + (if r.error != "" then 1 else 0) + (if r.payload.Some? then 1 else 0)
    ensures ms[0] == Member("action", Quote(r.action))
    ensures ms[|ms| - 1] == Member("status", IntToString(r.status as int))
    ensures r.error != "" ==> ms[1] == Member("error", Quote(r.error))
    ensures r.payload.Some? ==> ms[|ms| - 2] == Member("payload", PayloadText(r.payload.value, encodeStatus))
  {
    var a, s := Member("action", Quote(r.action)), Member("status", IntToString(r.status as int));
    var e := Member("error", Quote(r.error));
    if r.payload.None? then
      if r.error == "" then [a, s] else [a, e, s]
    else
      var p := Member("payload", PayloadText(r.payload.value, encodeStatus));
      if r.error == "" then [a, p, s] else [a, e, p, s]
  }

  /** The four keys in Go's order. */
  lemma KeyOrder()
    ensures Below("action", "error") && Below("action", "payload") && Below("action", "status")
    ensures Below("error", "payload") && Below("error", "status") && Below("payload", "status")
  {
  }

  /** The keys `Members` writes, by which of the optional members are present. */
  function KeysPresent(hasError: bool, hasPayload: bool): seq<string> {
    ["action"] + (if hasError then ["error"] else []) + (if hasPayload then ["payload"] else []) + ["status"]
  }

  lemma KeysPresentSorted(hasError: bool, hasPayload: bool)
    ensures forall i :: 0 <= i < |KeysPresent(hasError, hasPayload)| ==>
      KeysPresent(hasError, hasPayload)[i] in {"action", "error", "payload", "status"}
    ensures forall i, j :: 0 <= i < j < |KeysPresent(hasError, hasPayload)| ==>
      Below(KeysPresent(hasError, hasPayload)[i], KeysPresent(hasError, hasPayload)[j])
  {
    KeyOrder();
  }

  /** Every key is one of the four, and the keys are in strictly increasing order. */
  lemma MembersSorted(r: Response, encodeStatus: Pactl.Status -> string)
    ensures forall i :: 0 <= i < |Members(r, encodeStatus)| ==>
      Members(r, encodeStatus)[i].key in {"action", "error", "payload", "status"}
    ensures forall i, j :: 0 <= i < j < |Members(r, encodeStatus)| ==>
      Below(Members(r, encodeStatus)[i].key, Members(r, encodeStatus)[j].key)
  {
    var ms, ks := Members(r, encodeStatus), KeysPresent(r.error != "", r.payload.Some?);
    KeysPresentSorted(r.error != "", r.payload.Some?);
    assert |ms| == |ks| && forall i :: 0 <= i < |ms| ==> ms[i].key == ks[i];
  }

  /**
   * `payload` is written exactly when the payload is set and `error` exactly
   * when the error is non-empty, each with its value as JSON text.
   */
  lemma MembersPresent(r: Response, encodeStatus: Pactl.Status -> string)
    ensures HasKey(Members(r, encodeStatus), "payload") <==> r.payload.Some?
    ensures HasKey(Members(r, encodeStatus), "error") <==> r.error != ""
    ensures forall i :: 0 <= i < |Members(r, encodeStatus)| && Members(r, encodeStatus)[i].key == "error" ==>
      Members(r, encodeStatus)[i].value == Quote(r.error)
    ensures forall i :: 0 <= i < |Members(r, encodeStatus)| && Members(r, encodeStatus)[i].key == "payload" ==>
      r.payload.Some? && Members(r, encodeStatus)[i].value == PayloadText(r.payload.value, encodeStatus)
  {
    var ms := Members(r, encodeStatus);
    if r.error != "" {
      assert ms[1].key == "error";
    }
    if r.payload.Some? {
      assert ms[|ms| - 2].key == "payload";
    }
  }

  /**
   * One member as `"key":value`. The four keys are plain lower-case ASCII,
   * so the quoted key is the key between quotes (`KeysNeedNoEscape`).
   */
  function MemberText(m: Member): string {
    "\"" + m.key + "\":" + m.value
  }

  /** The members written as `"key":value` and separated by commas. */
  function MembersText(ms: seq<Member>): string {
    if |ms| == 0 then ""
    else if |ms| == 1 then MemberText(ms[0])
    else MemberText(ms[0]) + "," + MembersText(ms[1..])
  }

  /** `Response.MarshalJSON`: the members as one JSON object. */
  function MarshalJSON(r: Response, encodeStatus: Pactl.Status -> string): (text: string)
    ensures |text| >= 2 && text[0] == '{' && text[|text| - 1] == '}'
  {
    "{" + MembersText(Members(r, encodeStatus)) + "}"
  }

  /** A string of plain characters is quoted as it is. */
  lemma QuotePlain(s: string)
    requires forall i :: 0 <= i < |s| ==> Plain(s[i])
    ensures Quote(s) == "\"" + s + "\""
  {
    EscapePlain(s);
  }

  /** The four keys need no escaping. */
  lemma KeysNeedNoEscape(key: string)
    requires key in {"action", "error", "payload", "status"}
    ensures Quote(key) == "\"" + key + "\""
  {
    assert forall i :: 0 <= i < |key| ==> 'a' <= key[i] <= 'z';
    QuotePlain(key);
  }

  /** Three members are written with two commas. */
  lemma ThreeMembersText(m0: Member, m1: Member, m2: Member)
    ensures MembersText([m0, m1, m2]) == MemberText(m0) + "," + (MemberText(m1) + "," + MemberText(m2))
  {
    assert [m0, m1, m2][1..] == [m1, m2];
    assert [m1, m2][1..] == [m2];
    assert MembersText([m2]) == MemberText(m2);
    assert MembersText([m1, m2]) == MemberText(m1) + "," + MemberText(m2);
  }

  /** The pieces of a three-member object glued together; `sep` is the text between the first value and the second. */
  lemma ObjectText(t0: string, t1: string, t2: string, a: string, sep: string, key: string, v: string, n: string)
    requires t0 == "\"action\":" + a && t1 == "\"" + key + "\":" + v && t2 == "\"status\":" + n
    requires sep == ",\"" + key + "\":"
    ensures "{" + (t0 + "," + (t1 + "," + t2)) + "}" == "{\"action\":" + a + sep + v + ",\"status\":" + n + "}"
  {
    assert "{" + t0 == "{\"action\":" + a;
    assert "," + t1 == sep + v;
  }

  /** Three members, `action` first and `status` last, written out as an object. */
  lemma ThreeMembers(ms: seq<Member>, sep: string)
    requires |ms| == 3 && ms[0].key == "action" && ms[2].key == "status"
    requires sep == ",\"" + ms[1].key + "\":"
    ensures "{" + MembersText(ms) + "}" == "{\"action\":" + ms[0].value + sep + ms[1].value + ",\"status\":" + ms[2].value + "}"
  {
    var t0, t1, t2 := MemberText(ms[0]), MemberText(ms[1]), MemberText(ms[2]);
    assert MembersText(ms) == t0 + "," + (t1 + "," + t2) by {
      assert ms == [ms[0], ms[1], ms[2]];
      ThreeMembersText(ms[0], ms[1], ms[2]);
    }
    assert t0 == "\"action\":" + ms[0].value by {
      assert "\"" + "action" + "\":" == "\"action\":";
    }
    assert t2 == "\"status\":" + ms[2].value by {
      assert "\"" + "status" + "\":" == "\"status\":";
    }
    ObjectText(t0, t1, t2, ms[0].value, sep, ms[1].key, ms[1].value, ms[2].value);
  }

  /** The text between the first and the second value, for the two optional keys. */
  lemma KeySeparators()
    ensures ",\"payload\":" == ",\"" + "payload" + "\":"
    ensures ",\"error\":" == ",\"" + "error" + "\":"
  {
  }

  /** A response with a payload and no error is the object of its action, payload and status, in that order. */
  lemma MarshalPayload(r: Response, encodeStatus: Pactl.Status -> string)
    requires r.error == "" && r.payload.Some?
    ensures MarshalJSON(r, encodeStatus) ==
      "{\"action\":" + Quote(r.action) + ",\"payload\":" + PayloadText(r.payload.value, encodeStatus) + ",\"status\":" +
      IntToString(r.status as int) + "}"
  {
    KeySeparators();
    ThreeMembers(Members(r, encodeStatus), ",\"payload\":");
  }

  /** A response with an error and no payload is the object of its action, error and status, in that order. */
  lemma MarshalError(r: Response, encodeStatus: Pactl.Status -> string)
    requires r.error != "" && r.payload.None?
    ensures MarshalJSON(r, encodeStatus) ==
      "{\"action\":" + Quote(r.action) + ",\"error\":" + Quote(r.error) + ",\"status\":" +
      IntToString(r.status as int) + "}"
  {
    KeySeparators();
    ThreeMembers(Members(r, encodeStatus), ",\"error\":");
  }

  /** The envelope of a successful `GetStatus` with a string payload, as the source's test expects it. */
  lemma MarshalPayloadExample(r: Response, encodeStatus: Pactl.Status -> string)
    requires r.action == "GetStatus" && r.status == StatusSuccess && r.error == ""
    requires r.payload.Some? && r.payload.value.Text? && r.payload.value.text == "test payload"
    ensures MarshalJSON(r, encodeStatus) == "{\"action\":\"GetStatus\",\"payload\":\"test payload\",\"status\":4000}"
  {
    MarshalPayload(r, encodeStatus);
    assert PayloadText(r.payload.value, encodeStatus) == Quote(r.payload.value.text);
    PayloadExampleValues(r.action, r.payload.value.text, r.status);
  }

  lemma PayloadExampleValues(a: string, p: string, n: Int16)
    requires a == "GetStatus" && p == "test payload" && n == 4000
    ensures "{\"action\":" + Quote(a) + ",\"payload\":" + Quote(p) + ",\"status\":" + IntToString(n as int) + "}" ==
      "{\"action\":\"GetStatus\",\"payload\":\"test payload\",\"status\":4000}"
  {
    QuoteWords(a);
    QuoteWords(p);
    assert "\"" + a + "\"" == "\"GetStatus\"";
    assert "\"" + p + "\"" == "\"test payload\"";
    assert IntToString(4000) == "4000";
    PayloadExampleText();
  }

  /** The envelope of a failed `GetStatus` with an error and no payload, as the source's test expects it. */
  lemma MarshalErrorExample(r: Response, encodeStatus: Pactl.Status -> string)
    requires r.action == "GetStatus" && r.status == StatusError && r.error == "test error" && r.payload.None?
    ensures MarshalJSON(r, encodeStatus) == "{\"action\":\"GetStatus\",\"error\":\"test error\",\"status\":4001}"
  {
    MarshalError(r, encodeStatus);
    ErrorExampleValues(r.action, r.error, r.status);
  }

  lemma ErrorExampleValues(a: string, e: string, n: Int16)
    requires a == "GetStatus" && e == "test error" && n == 4001
    ensures "{\"action\":" + Quote(a) + ",\"error\":" + Quote(e) + ",\"status\":" + IntToString(n as int) + "}" ==
      "{\"action\":\"GetStatus\",\"error\":\"test error\",\"status\":4001}"
  {
    QuoteWords(a);
    QuoteWords(e);
    assert "\"" + a + "\"" == "\"GetStatus\"";
    assert "\"" + e + "\"" == "\"test error\"";
    assert IntToString(4001) == "4001";
    ErrorExampleText();
  }

  /** Letters and spaces are quoted as they are. */
  lemma QuoteWords(s: string)
    requires forall i :: 0 <= i < |s| ==> s[i] == ' ' || 'A' <= s[i] <= 'Z' || 'a' <= s[i] <= 'z'
    ensures Quote(s) == "\"" + s + "\""
  {
    QuotePlain(s);
  }

  /**
   * The pieces of the expected `payload` envelope glued into one literal.
   * The intermediate asserts lead the verifier through the concatenation
   * one piece at a time; the same chain serves the `error` envelope below.
   */
  lemma PayloadExampleText()
    ensures "{\"action\":" + "\"GetStatus\"" + ",\"payload\":" + "\"test payload\"" + ",\"status\":" + "4000" + "}" ==
      "{\"action\":\"GetStatus\",\"payload\":\"test payload\",\"status\":4000}"
  {
    var t := "{\"action\":" + "\"GetStatus\"";
    assert t == "{\"action\":\"GetStatus\"";
    assert t + ",\"payload\":" == "{\"action\":\"GetStatus\",\"payload\":";
    t := t + ",\"payload\":" + "\"test payload\"";
    assert t == "{\"action\":\"GetStatus\",\"payload\":\"test payload\"";
    assert t + ",\"status\":" == "{\"action\":\"GetStatus\",\"payload\":\"test payload\",\"status\":";
    t := t + ",\"status\":" + "4000";
    assert t == "{\"action\":\"GetStatus\",\"payload\":\"test payload\",\"status\":4000";
  }

  /** The pieces of the expected `error` envelope glued into one literal. */
  lemma ErrorExampleText()
    ensures "{\"action\":" + "\"GetStatus\"" + ",\"error\":" + "\"test error\"" + ",\"status\":" + "4001" + "}" ==
      "{\"action\":\"GetStatus\",\"error\":\"test error\",\"status\":4001}"
  {
    var t := "{\"action\":" + "\"GetStatus\"";
    assert t == "{\"action\":\"GetStatus\"";
    assert t + ",\"error\":" == "{\"action\":\"GetStatus\",\"error\":";
    t := t + ",\"error\":" + "\"test error\"";
    assert t == "{\"action\":\"GetStatus\",\"error\":\"test error\"";
    assert t + ",\"status\":" == "{\"action\":\"GetStatus\",\"error\":\"test error\",\"status\":";
    t := t + ",\"status\":" + "4001";
    assert t == "{\"action\":\"GetStatus\",\"error\":\"test error\",\"status\":4001";
  }
}
