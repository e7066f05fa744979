/**
 * One tick of `BroadcastUpdates` in api/ws/broadcast.go. A tick with no
 * client does nothing. Otherwise it builds a `GetStatus` response on a fresh
 * snapshot and, unless that deep-equals the last response broadcast, records
 * it as the last one and writes it to every registered connection, dropping
 * each connection whose write fails.
 *
 * `reflect.DeepEqual` is datatype equality here: it tells a nil section of
 * the snapshot from an empty one, as the model's `Option` does. Which writes
 * fail is an input.
 */
module Broadcast {
  import opened Wrappers
  import Pactl
  import opened Envelope
  import opened Protocol

  /** The zero `Response`, which `prevRes` holds before the first broadcast. */
  const NoResponse := Response("", 0, None, "")

  /** The response a tick builds on a snapshot. */
  function Update(snapshot: Pactl.Status): Response {
    Response(ActionGetStatus, StatusSuccess, Some(Snapshot(snapshot)), "")
  }

  /** The state a tick leaves and what it sent: the response, if any, and how many writes succeeded. */
  datatype TickResult = TickResult(prevRes: Response, clients: set<Conn>, sent: Option<Response>, updated: nat)

  /**
   * One tick from `prevRes` and the registry, on `snapshot`, with the writes
   * to the connections in `failing` failing.
   */
  function TickOf(prevRes: Response, clients: set<Conn>, snapshot: Pactl.Status, failing: set<Conn>): (t: TickResult)
    ensures t.sent.Some? <==> clients != {} && Update(snapshot) != prevRes
    ensures t.sent.None? ==> t == TickResult(prevRes, clients, None, 0)
    ensures t.sent.Some? ==>
      && t.sent.value == Update(snapshot) && t.prevRes == Update(snapshot)
      && t.clients == clients - failing && t.clients <= clients
      && t.updated == |t.clients| <= |clients|
  {
    if clients == {} || Update(snapshot) == prevRes then TickResult(prevRes, clients, None, 0)
    else
      var kept := clients - failing;
      SubsetSize(kept, clients);
      TickResult(Update(snapshot), kept, Some(Update(snapshot)), |kept|)
  }

  lemma SubsetSize<T>(a: set<T>, b: set<T>)
    requires a <= b
    ensures |a| <= |b|
  {
    assert b == a + (b - a);
  }

  /** Everything a tick broadcasts is a `GetStatus` response with status 4000 and a snapshot, and no error. */
  lemma BroadcastShape(prevRes: Response, clients: set<Conn>, snapshot: Pactl.Status, failing: set<Conn>)
    ensures var t := TickOf(prevRes, clients, snapshot, failing);
      t.sent.Some? ==> t.sent.value.action == ActionGetStatus && t.sent.value.status == StatusSuccess &&
                       t.sent.value.payload == Some(Snapshot(snapshot)) && t.sent.value.error == ""
  {
  }

  /** `prevRes` starts empty, so the first tick with a client always broadcasts. */
  lemma FirstTickBroadcasts(clients: set<Conn>, snapshot: Pactl.Status, failing: set<Conn>)
    requires clients != {}
    ensures TickOf(NoResponse, clients, snapshot, failing).sent == Some(Update(snapshot))
  {
    assert Update(snapshot).action != NoResponse.action;
  }

  /**
   * Two ticks in a row on an unchanged snapshot: when a client remains for
   * the second, the second sends nothing and changes nothing.
   */
  lemma SecondTickIdle(prevRes: Response, clients: set<Conn>, snapshot: Pactl.Status, failing: set<Conn>, failingNext: set<Conn>)
    requires TickOf(prevRes, clients, snapshot, failing).clients != {}
    ensures var t := TickOf(prevRes, clients, snapshot, failing);
      TickOf(t.prevRes, t.clients, snapshot, failingNext) == TickResult(t.prevRes, t.clients, None, 0)
  {
  }

  /** The process-wide broadcast state. */
  class Broadcaster {
    var prevRes: Response

    constructor()
      ensures prevRes == NoResponse
    {
      prevRes := NoResponse;
    }

    /**
     * One tick of the ticker loop. It returns what it sent, the connections
     * it wrote to in the order of the writes, and `updatedClients`.
     */
    method Tick(registry: Registry, snapshot: Pactl.Status, failing: set<Conn>)
        returns (sent: Option<Response>, attempted: seq<Conn>, updated: nat)
      modifies this, registry
      ensures var t := TickOf(old(prevRes), old(registry.clients), snapshot, failing);
        prevRes == t.prevRes && registry.clients == t.clients && sent == t.sent && updated == t.updated
      ensures sent.None? ==> attempted == []
      ensures sent.Some? ==> (forall c :: c in attempted <==> c in old(registry.clients))
      ensures forall i, j :: 0 <= i < j < |attempted| ==> attempted[i] != attempted[j]
    {
      if registry.clients == {} {
        return None, [], 0;
      }
      var res := Update(snapshot);
      if res == prevRes {
        return None, [], 0;
      }
      prevRes := res;
      attempted, updated := WriteAll(registry, failing);
      sent := Some(res);
    }
  }

  /**
   * The write loop over `clients`: one write attempt per registered
   * connection, in the map's order, closing and deleting each connection
   * whose write fails and counting the others.
   */
  method WriteAll(registry: Registry, failing: set<Conn>) returns (attempted: seq<Conn>, updated: nat)
    modifies registry
    ensures registry.clients == old(registry.clients) - failing
    ensures updated == |registry.clients|
    ensures forall c :: c in attempted <==> c in old(registry.clients)
    ensures forall i, j :: 0 <= i < j < |attempted| ==> attempted[i] != attempted[j]
  {
    updated := 0;
    attempted := [];
    ghost var start := registry.clients;
    ghost var visited: set<Conn> := {};
    ghost var succeeded: set<Conn> := {};
    var pending := registry.clients;
    while pending != {}
      invariant visited + pending == start && visited !! pending
      invariant forall c :: c in attempted <==> c in visited
      invariant forall i, j :: 0 <= i < j < |attempted| ==> attempted[i] != attempted[j]
      invariant registry.clients == start - (visited * failing)
      invariant succeeded == visited - failing && updated == |succeeded|
      decreases |pending|
    {
      var c :| c in pending;
      VisitStep(start, visited, pending, failing, c);
      AttemptStep(attempted, visited, c);
      attempted := attempted + [c];
      if c in failing {
        registry.Remove(c);
      } else {
        succeeded := succeeded + {c};
        updated := updated + 1;
      }
      visited := visited + {c};
      pending := pending - {c};
    }
    assert visited == start;
  }

  lemma VisitStep(start: set<Conn>, visited: set<Conn>, pending: set<Conn>, failing: set<Conn>, c: Conn)
    requires visited + pending == start && visited !! pending && c in pending
    ensures (visited + {c}) + (pending - {c}) == start && (visited + {c}) !! (pending - {c})
    ensures c in failing ==> start - ((visited + {c}) * failing) == (start - (visited * failing)) - {c}
    ensures c !in failing ==> start - ((visited + {c}) * failing) == start - (visited * failing)
    ensures c in failing ==> (visited + {c}) - failing == visited - failing
    ensures c !in failing ==> (visited + {c}) - failing == (visited - failing) + {c} && c !in visited - failing
  {
  }

  lemma AttemptStep(attempted: seq<Conn>, visited: set<Conn>, c: Conn)
    requires forall x :: x in attempted <==> x in visited
    requires forall i, j :: 0 <= i < j < |attempted| ==> attempted[i] != attempted[j]
    requires c !in visited
    ensures forall x :: x in attempted + [c] <==> x in visited + {c}
    ensures forall i, j :: 0 <= i < j < |attempted + [c]| ==> (attempted + [c])[i] != (attempted + [c])[j]
  {
  }
}
