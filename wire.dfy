/**
 * The wire vocabulary shared by the routing actors (Group, Gateway) and the
 * session actors (Replica, Shard): header keys, internal route paths, and the
 * request / response / outbound-call records every actor exchanges.
 */
module Wire {

  datatype Option<+T> = None | Some(value: T) {
    function GetOr(default: T): T {
      if Some? then value else default
    }
  }

  /** An operation that either yields a value or throws an `Error` with a message. */
  datatype Result<+T> = Ok(value: T) | Err(message: string)

  /**
   * The header keys of the internal protocol plus the three handshake headers
   * of RFC 6455. The exact header names of the newer keys are not fixed here:
   * only their identity matters to the actors.
   */
  datatype HeaderKey =
    | GroupId | ObjectId | ClientId | NeighborId | TargetId | IsEmpty
    | GatewayId | ShardId
    | Upgrade | SecWebSocketKey | SecWebSocketVersion

  type Headers = map<HeaderKey, string>

  // Internal route paths (src/internal/routes.ts).
  const CLOSE: string := "/~$~/close"
  const NEIGHBOR: string := "/~$~/jello"
  const BROADCAST: string := "/~$~/message"
  const WHISPER: string := "/~$~/whisper"
  const GOSSIP: string := "/~$~/gossip"

  /** An incoming request: the pathname is already parsed out of its URL. */
  datatype Request = Request(verb: string, pathname: string, headers: Headers, body: string)

  /** A response; `body == None` is a null body. */
  datatype Response = Response(status: int, statusText: string, body: Option<string>, headers: map<string, string>)

  /** The response that completes a WebSocket upgrade. */
  const Switching: Response := Response(101, "Switching Protocols", None, map[])

  /** An opaque WebSocket (the server end of a `WebSocketPair`). */
  type SocketId = nat

  /** `new Response` with no arguments: 200 and a null body. */
  const EmptyResponse: Response := Response(200, "", None, map[])

  /** An outbound call to another actor `to` on path `route`. */
  datatype Rpc = Rpc(to: string, route: string, headers: Headers, body: string)

  /** What a routing actor's `fetch` does with a request: answer it, or hand it on (with any introductions it queued). */
  datatype Outcome = Reply(response: Response) | Forward(request: Rpc, intros: seq<Rpc>)

  /** `list[0]` of a string list: undefined when empty. */
  function First(s: seq<string>): Option<string> {
    if s == [] then None else Some(s[0])
  }

  /** `Math.max(0, n)`. */
  function Max0(n: int): int {
    if n < 0 then 0 else n
  }

  /** `Headers.get` or `Map.get`: the value, or null when absent. */
  function Get<K, V>(h: map<K, V>, k: K): (r: Option<V>)
    ensures r.Some? <==> k in h
    ensures r.Some? ==> r.value == h[k]
  {
    if k in h then Some(h[k]) else None
  }

  /** JavaScript truthiness of a string-or-null value: present and non-empty. */
  predicate Truthy(o: Option<string>) {
    o.Some? && o.value != ""
  }

  /** JavaScript `a || b` on string-or-null values. */
  function Or(a: Option<string>, b: Option<string>): Option<string> {
    if Truthy(a) then a else b
  }

  /** The thrown error's `stack` text; its frame lines are not modelled. */
  function ErrorStack(message: string): string {
    "Error: " + message
  }

  predicate NoDup<T(==)>(s: seq<T>) {
    forall i, j :: 0 <= i < j < |s| ==> s[i] != s[j]
  }

  /** `[...set].add(x)` on an insertion-ordered set held as a sequence. */
  function AddLast(s: seq<string>, x: string): (r: seq<string>)
    requires NoDup(s)
    ensures NoDup(r)
    ensures forall y :: y in r <==> y in s || y == x
    ensures x in s ==> r == s
    ensures x !in s ==> r == s + [x]
  {
    if x in s then s else s + [x]
  }
}
