/**
 * The per-connection protocol of api/ws/handleWebSocket.go: the registry of
 * connected clients, the response sent on connect, the switch that routes a
 * message to its handler, and the read-dispatch-write loop that ends at the
 * first failed read or write and then removes its connection from the
 * registry.
 *
 * Connections are abstract ids. What the client sends is a sequence of read
 * results, the writes that fail are a set of message indices, and the
 * snapshot each `GetStatus` would take is a function of the step.
 */
module Protocol {
  import opened Wrappers
  import opened Text
  import Pactl
  import opened Envelope
  import opened Handlers
  import Commands

  type Conn = nat

  /** The `clients` map, as the set of its keys. */
  class Registry {
    var clients: set<Conn>

    constructor()
      ensures clients == {}
    {
      clients := {};
    }

    /** A new connection joins the registry, which grows by one. */
    method Add(c: Conn)
      modifies this
      ensures clients == old(clients) + {c}
      ensures c !in old(clients) ==> |clients| == |old(clients)| + 1
    {
      clients := clients + {c};
    }

    /** `delete(clients, conn)`: only that connection leaves. */
    method Remove(c: Conn)
      modifies this
      ensures clients == old(clients) - {c}
    {
      clients := clients - {c};
    }
  }

  /** The error of an action without a case: every available action, separated by single spaces. */
  const CommandNotFound := "Command not found. Available actions: " + Join(AvailableCommands, " ")

  /** The response a message starts from: its own action and status 4000. */
  function Fresh(msg: Message): Response {
    Response(msg.action, StatusSuccess, None, "")
  }

  /** The case of the switch that serves a setter action, if the action is one. */
  function SetterFor(action: string): (h: Option<Setter>)
    ensures h.Some? ==> ActionOf(h.value) == action
    ensures h.None? ==> forall g :: ActionOf(g) != action
  {
    if action == ActionSetSinkVolume then Some(SinkVolume)
    else if action == ActionSetSinkMuted then Some(SinkMuted)
    else if action == ActionSetSinkInputVolume then Some(SinkInputVolume)
    else if action == ActionSetSinkInputMuted then Some(SinkInputMuted)
    else if action == ActionMoveSinkInput then Some(SinkInputMove)
    else if action == ActionSetSourceVolume then Some(SourceVolume)
    else if action == ActionSetSourceMuted then Some(SourceMuted)
    else if action == ActionSetSourceInputVolume then Some(SourceInputVolume)
    else if action == ActionSetSourceInputMuted then Some(SourceInputMuted)
    else if action == ActionMoveSourceOutput then Some(SourceOutputMove)
    else None
  }

  /** The switch has a setter case for exactly the ten setter actions of `AvailableCommands`. */
  lemma SetterForSetters(action: string)
    ensures SetterFor(action).Some? <==> action in AvailableCommands[2..]
  {
    HandlersServeSetters();
  }

  /**
   * The switch over `msg.Action`. Every reply echoes the action. `GetStatus`
   * attaches the snapshot; a setter action runs its handler on the fresh
   * response; anything else, `GetBuildInfo` included, gets status 4002 and
   * the list of available actions.
   */
  function Dispatch(msg: Message, snapshot: Pactl.Status): (o: Outcome)
    ensures o.response.action == msg.action
    ensures msg.action == ActionGetStatus ==>
      o == Outcome(Response(msg.action, StatusSuccess, Some(Snapshot(snapshot)), ""), None)
    ensures SetterFor(msg.action).Some? ==> Handles(SetterFor(msg.action).value, msg, Fresh(msg), snapshot, o)
    ensures msg.action != ActionGetStatus && msg.action !in AvailableCommands[2..] ==>
      o == Outcome(Response(msg.action, StatusActionError, None, CommandNotFound), None)
  {
    var res := Fresh(msg);
    SetterForSetters(msg.action);
    if msg.action == ActionGetStatus then
      Outcome(res.(payload := Some(Snapshot(snapshot))), None)
    else
      match SetterFor(msg.action)
      case Some(h) => Handle(h, msg, res, snapshot)
      case None => Outcome(res.(error := CommandNotFound, status := StatusActionError), None)
  }

  /**
   * A message makes the server issue a command exactly when its action is a
   * setter and its payload is an object, and the command then requests the
   * mutation the payload describes.
   */
  lemma DispatchIssues(msg: Message, snapshot: Pactl.Status)
    ensures Dispatch(msg, snapshot).issued.Some? <==> msg.action in AvailableCommands[2..] && msg.payload.JObj?
    ensures Dispatch(msg, snapshot).issued.Some? ==>
      Commands.Decode(Dispatch(msg, snapshot).issued.value) == Some(Requested(SetterFor(msg.action).value, msg.payload.fields))
  {
    SetterForSetters(msg.action);
  }

  /**
   * A reply's status is 4000 unless the action has no case or its payload is
   * not an object, which give 4002.
   */
  lemma DispatchStatus(msg: Message, snapshot: Pactl.Status)
    ensures var r := Dispatch(msg, snapshot).response;
      r.status == if msg.action == ActionGetStatus || (msg.action in AvailableCommands[2..] && msg.payload.JObj?)
                  then StatusSuccess else StatusActionError
  {
    SetterForSetters(msg.action);
  }

  /** `GetBuildInfo` is an available action without a case. */
  lemma BuildInfoNotRouted(payload: Json, snapshot: Pactl.Status)
    ensures ActionGetBuildInfo in AvailableCommands
    ensures Dispatch(Message(ActionGetBuildInfo, payload), snapshot) ==
      Outcome(Response(ActionGetBuildInfo, StatusActionError, None, CommandNotFound), None)
  {
    HandlersServeSetters();
    AvailableCommandsDistinct();
    assert ActionGetBuildInfo == AvailableCommands[1];
  }

  /** None of the action names holds a space. */
  lemma ActionsWithoutSpaces()
    ensures forall i, k :: 0 <= i < |AvailableCommands| && 0 <= k < |AvailableCommands[i]| ==> AvailableCommands[i][k] != ' '
  {
  }

  /** The list in the error splits back on single spaces into `AvailableCommands`. */
  lemma CommandNotFoundLists()
    ensures CommandNotFound == "Command not found. Available actions: " + Join(AvailableCommands, " ")
    ensures Split(CommandNotFound[|"Command not found. Available actions: "|..], " ") == AvailableCommands
  {
    var prefix := "Command not found. Available actions: ";
    assert CommandNotFound[|prefix|..] == Join(AvailableCommands, " ");
    ActionsWithoutSpaces();
    forall i | 0 <= i < |AvailableCommands| ensures !Contains(AvailableCommands[i], " ") {
      NoSpace(AvailableCommands[i]);
    }
    SplitJoin(AvailableCommands, " ");
  }

  lemma NoSpace(s: string)
    requires forall k :: 0 <= k < |s| ==> s[k] != ' '
    ensures !Contains(s, " ")
  {
    forall p: nat | p + 1 <= |s| ensures !StartsAt(s, " ", p) {
      assert s[p..p + 1][0] == s[p];
    }
  }

  // ---- one connection

  /** What a read on the connection yields: a decoded message, or an error (including a close). */
  datatype Read = Received(msg: Message) | ReadFailed

  /**
   * How many messages from the `k`-th read on get a reply. The write of the
   * reply to message `i` fails when `i` is in `failedWrites`; the loop ends
   * at the first failed read, after the first failed write, or when the
   * reads run out.
   */
  function Answered(incoming: seq<Read>, failedWrites: set<nat>, k: nat): (n: nat)
    requires k <= |incoming|
    decreases |incoming| - k
    ensures k + n <= |incoming|
    ensures forall i :: k <= i < k + n ==> incoming[i].Received?
    ensures forall i :: k <= i < k + n - 1 ==> i !in failedWrites
    ensures k + n < |incoming| ==> incoming[k + n].ReadFailed? || (n > 0 && k + n - 1 in failedWrites)
  {
    if k == |incoming| || incoming[k].ReadFailed? then 0
    else if k in failedWrites then 1
    else 1 + Answered(incoming, failedWrites, k + 1)
  }

  /** The replies to the first `n` messages, each on its own snapshot. */
  function Replies(incoming: seq<Read>, snapshotAt: nat -> Pactl.Status, n: nat): (rs: seq<Outcome>)
    requires n <= |incoming| && forall i :: 0 <= i < n ==> incoming[i].Received?
    ensures |rs| == n
  {
    seq(n, i requires 0 <= i < n => Dispatch(incoming[i].msg, snapshotAt(i + 1)))
  }

  /** Answering one more message appends its reply. */
  lemma RepliesStep(incoming: seq<Read>, snapshotAt: nat -> Pactl.Status, n: nat)
    requires n < |incoming| && forall i :: 0 <= i <= n ==> incoming[i].Received?
    ensures Replies(incoming, snapshotAt, n + 1) ==
      Replies(incoming, snapshotAt, n) + [Dispatch(incoming[n].msg, snapshotAt(n + 1))]
  {
    var longer, shorter := Replies(incoming, snapshotAt, n + 1), Replies(incoming, snapshotAt, n);
    forall i | 0 <= i < n ensures longer[i] == shorter[i] {
    }
  }

  /**
   * `HandleWebSocket` after the upgrade: register the connection, send the
   * snapshot, answer each message in order until a read or a write fails,
   * and unregister the connection. The reply to message `i` uses snapshot
   * `i + 1`; snapshot 0 is the one sent on connect. A failure to send that
   * first snapshot is only logged, so it does not appear here.
   */
  method Session(registry: Registry, conn: Conn, incoming: seq<Read>, failedWrites: set<nat>, snapshotAt: nat -> Pactl.Status)
      returns (initial: Response, replies: seq<Outcome>)
    modifies registry
    ensures initial == Response(ActionGetStatus, StatusSuccess, Some(Snapshot(snapshotAt(0))), "")
    ensures replies == Replies(incoming, snapshotAt, Answered(incoming, failedWrites, 0))
    ensures registry.clients == old(registry.clients) - {conn}
  {
    registry.Add(conn);
    initial := Response(ActionGetStatus, StatusSuccess, Some(Snapshot(snapshotAt(0))), "");
    replies := [];
    var k := 0;
    while k < |incoming|
      invariant k <= |incoming|
      invariant Answered(incoming, failedWrites, 0) == k + Answered(incoming, failedWrites, k)
      invariant replies == Replies(incoming, snapshotAt, k)
      invariant registry.clients == old(registry.clients) + {conn}
    {
      if incoming[k].ReadFailed? {
        break;
      }
      var reply := Dispatch(incoming[k].msg, snapshotAt(k + 1));
      RepliesStep(incoming, snapshotAt, k);
      replies := replies + [reply];
      if k in failedWrites {
        break;
      }
      k := k + 1;
    }
    registry.Remove(conn);
  }
}
