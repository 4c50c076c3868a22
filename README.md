# dog: load-balanced WebSocket actors, modelled in Dafny

`dog` builds groups of Durable Objects on Cloudflare Workers. A routing actor
(the **Group**, or in the earlier revision the **Gateway**) receives every
client request. It picks a session actor (a **Replica**, or in the earlier
revision a **Shard**) with room for one more live connection. It keeps one
live-session count per session actor, never above `limit`. It mints a new
session actor when none has room, and introduces each new one to those it
already knows. A session actor upgrades requests to WebSockets and pools
each client's sockets. It delivers messages to its own sockets and relays them
to its neighbours, and it tells its routing actor when a client's session ends.

The model has one module per concern:

- `Wire` (wire.dfy): header keys, the internal route paths, and the request,
  response and outbound-call records.
- `Utils` (utils.dfy): `abort` (with the UTF-8 byte length of its body and the
  decimal Content-Length) and `validate`.
- `Handshake` (handshake.dfy): the RFC 6455 section 4.2.1 pre-checks of
  `connect`, with `String.prototype.trim` and the base64 shape of the key.
- `Load` (load.dfy): the least-loaded selection that both `#sort`s share. It is
  a stable sort by live count followed by the loop that keeps the entries under
  the limit.
- `GroupActor` (group.dfy): the class `Group`. Its private fields become
  `var`s, and the `Map` insertion order of `#kids` is a `seq` beside the map.
- `ReplicaActor` (replica.dfy): the class `Replica`. The socket pool is a map
  to socket sets. Every `ws.send` is appended to `outbox`, and every
  `server.close()` to `closed`.
- `GatewayActor` (gateway.dfy): the class `Gateway`. The durable store is a
  map from `rid:`/`sid:` keys to stored values.
- `ShardActor` (shard.dfy): the class `Shard`.

Each state-changing operation is a method. Its `ensures` gives the whole new
state in terms of pure functions such as `Decide`, `Available`, `Admit`,
`Release`, `Audience`, `Dispatch` and `StorageAfterClose`. Lemmas prove what
the code promises about those functions:

- stickiness, least-loaded choice, the capacity bound, and minting only when
  nothing fits;
- exactly-once delivery, with relays skipping the sender;
- introductions both ways.

Lemmas also relate the internal calls to the receiver's header check:

- The group's forward and introductions are accepted by the replica's
  `validate`, and so are the replica's relays.
- The replica's close notice is accepted by the group's close check. The
  forward and the notice are accepted only for a non-empty client id, which
  `validate` reads as missing.
- The gateway's forward is accepted by the shard's check.
- The gateway's introductions are refused by the shard's check
  (`GatewayIntroduceRefused`).
- The shard's close notice, posted to `/$/close`, is not related to any check
  of the gateway, whose own header check is outside this model.

Where the written specification and the code differ, the model follows the
code:

- The group's close check throws `Mismatch: Group ID`.
- In the earlier revision the gateway's `#sorted` holds `sid:`-prefixed
  keys, yet `fetch` reads `#sorted[0]` as a shard id.
- The earlier shard has no NEIGHBOR route and refuses the gateway's
  introductions for want of CLIENTID (`GatewayIntroduceRefused`).
- The earlier shard posts its close notice to `/$/close`, not to the gateway's
  CLOSE path.

## Model

| member | source | states |
|---|---|---|
| Wire.AddLast | src/replica.ts:196 | `Set.add` on an insertion-ordered set: the result has no duplicates, gains exactly `x`, and is unchanged when `x` was already present, else `x` goes last |
| Utils.EncodeChar | src/internal/utils.ts:24 | one character encodes to 1 to 4 UTF-8 bytes, and to exactly one byte iff it is ASCII |
| Utils.EncodeCharRoundTrip | src/internal/utils.ts:24 | every encoded character decodes back to its scalar value |
| Utils.Utf8LengthBounds | src/internal/utils.ts:24 | `byteLength` lies between the string length and four times it |
| Utils.Utf8Ascii | src/internal/utils.ts:24 | an ASCII string encodes byte for byte to its character codes |
| Utils.DecimalString | src/internal/utils.ts:31 | `String(length)` is a non-empty run of decimal digits with no leading zero |
| Utils.DecimalRoundTrip | src/internal/utils.ts:31 | the decimal text of `n` reads back as `n` |
| Utils.Abort | src/internal/utils.ts:22-34 | status is the code; statusText is the code's table entry; an absent or empty message falls back to the status text; exactly the headers Connection: close, Content-Type: text/plain and Content-Length, where Content-Length is the decimal UTF-8 byte length of the body |
| Utils.AbortContentLength | src/internal/utils.ts:24-31 | the declared Content-Length reads back as the body's byte count, which lies between one and four bytes per character |
| Utils.AbortAsciiLength | src/internal/utils.ts:23-31 | for a non-empty ASCII message, Content-Length is the decimal form of the message's length |
| Utils.Thrown | src/replica.ts:218-220 | a route's catch of a thrown `Error` answers 400 with the error's stack text as body |
| Utils.ReceiveResult | src/replica.ts:239-243 | the response of `receive` is passed on unchanged; if `receive` throws, the answer is a 400 carrying the stack text |
| Utils.Validate | src/internal/utils.ts:39-54 | the checks run in order: Missing Replica ID, Mismatch Replica ID (only against a non-empty expected id), Missing Group ID, Missing Request ID (neither a non-empty CLIENTID nor a NEIGHBORID), each with its message; it succeeds iff all pass; the request id is a non-empty CLIENTID, else NEIGHBORID; TARGETID is passed through |
| Handshake.Trim | src/replica.ts:84 | `trim()` is a slice of the input with only whitespace cut on each side, and the result neither starts nor ends with whitespace |
| Handshake.TrimUnspaced | src/replica.ts:84 | a string without outer whitespace is its own trim |
| Handshake.TrimIdempotent | src/replica.ts:84 | trimming twice equals trimming once |
| Handshake.Base64OneOver | src/replica.ts:85 | base64 of `3k+1` bytes is `4k+4` characters: alphabet digits followed by `==` |
| Handshake.NonceKeyAccepted | src/replica.ts:85 | the base64 of any 16-byte nonce matches `^[+/0-9A-Za-z]{22}==$` |
| Handshake.UpgradeCheck | src/replica.ts:79-88 | it passes iff GET, Upgrade exactly `websocket`, a trimmed key of the accepted form and version `13`; otherwise 405 for the method, 426 for the Upgrade header, 400 for the rest |
| Handshake.MissingKeyRejected | src/replica.ts:84-85 | a missing or empty key is refused with 400 |
| Handshake.ClientHandshakeAccepted | src/replica.ts:79-88 | every conforming RFC 6455 client handshake passes the pre-checks |
| Load.SortTuples | src/group.ts:148-150 | skipping the sort for fewer than two tuples gives the sorted list all the same |
| Load.SortByLoadAscending | src/group.ts:149 | the comparator `a[1] - b[1]` leaves counts ascending |
| Load.SortByLoadPermutes | src/group.ts:149 | the sort is a permutation of the tuples |
| Load.SortByLoadNoDupIds | src/group.ts:149 | sorting keeps distinct ids distinct |
| Load.EligibleMembers | src/group.ts:154-160 | the kept tuples are exactly those whose count is below the limit |
| Load.EligibleAscending | src/group.ts:154-160 | filtering keeps ascending order |
| Load.EligibleNoDupIds | src/group.ts:154-160 | filtering keeps ids distinct |
| Load.EntriesOf | src/group.ts:146 | `[...kids]` lists each key in insertion order with its count |
| Load.EntriesMembers | src/group.ts:146 | the entries are exactly the table's (id, count) pairs, ids distinct |
| Load.EligibleTable | src/group.ts:145-165 | `#sorted` holds exactly the replicas below the limit, once each, by ascending count, and its head is no more loaded than any of them |
| Load.AvailableFacts | src/group.ts:162-164 | the same facts for `#sorted`, and the returned bucket is its head with the stored count |
| Load.SelectEligible | src/group.ts:152-160 | the loop pushes the ids of the tuples below the limit, in order, and remembers the first such tuple |
| Load.LeastLoaded | src/group.ts:145-165 | sort then filter yields exactly the entries below the limit, ascending, ids distinct, head least loaded |
| GroupActor.IntroduceAccepted | src/group.ts:130-138 | the introduction goes to `target` on NEIGHBOR, and the target's `validate` accepts it with the stranger as request id |
| GroupActor.IntroductionsPairs | src/group.ts:117-124 | two calls per known replica, in order: the newcomer to it, then it to the newcomer |
| GroupActor.IntroductionsBothWays | src/group.ts:111-125 | every earlier replica is introduced to the newcomer and the newcomer to it, and nothing else is sent |
| GroupActor.DecideSticky | src/group.ts:74-78 | a client whose replica has room stays on it with one more session |
| GroupActor.DecideRebalanced | src/group.ts:79-87 | when the candidate is refused and `#sorted` is non-empty, a replica below the limit, if any, is chosen, and it is the least loaded |
| GroupActor.DecideMinted | src/group.ts:82-91 | a replica is minted iff the candidate is refused and either `#sorted` is empty or every replica is at the limit; a minted replica has count 1 |
| GroupActor.DecideCapacity | src/group.ts:77-97 | with `limit >= 1`, the new count lies in 1..limit and the table stays within the limit |
| GroupActor.CloseCheck | src/group.ts:167-172 | in order: `validate`'s error, Mismatch Group ID, Unknown Replica ID; it succeeds iff all pass |
| GroupActor.Group.constructor | src/group.ts:23-31 | empty mapping, table and `#sorted`; no current replica |
| GroupActor.Group.SetKid | src/group.ts:97 | `#kids.set`: the count is updated and a new id joins the iteration order last |
| GroupActor.Group.Sort | src/group.ts:145-165 | `#sorted` becomes the replicas below the limit by ascending count; the bucket returned is its head with its count |
| GroupActor.Group.Welcome | src/group.ts:111-125 | the newcomer heads `#sorted` with count 1, and the introductions go to the replicas known before it |
| GroupActor.Group.Pick | src/group.ts:73-92 | the replica and count chosen are those of `Decide`; `#sorted` and the table change exactly as on the path taken |
| GroupActor.Group.Fallback | src/group.ts:79-92 | with a non-empty `#sorted` and a replica below the limit, that least-loaded replica; otherwise the minted replica, welcomed |
| GroupActor.Group.Route | src/group.ts:71-97 | the client is mapped to the chosen replica, its count is set, and `#current` is kept only while below the limit |
| GroupActor.Group.Close | src/group.ts:167-186 | errors leave the state unchanged; otherwise the replica's count drops by one (floored at 0), the client's mapping goes only when ISEMPTY is "1", and `#sorted`/`#current` are recomputed |
| GroupActor.Group.Resort | src/group.ts:181-183 | `#current` becomes the head of the recomputed `#sorted`, or none |
| GroupActor.Group.Record | src/group.ts:94-97 | `#current` is kept only while below the limit; the client's mapping and the replica's count are set |
| GroupActor.Group.Handoff | src/group.ts:71-104 | the request goes to the replica `Decide` picks, with GROUPID, CLIENTID and OBJECTID set and the introductions of a minted replica; the new table, mapping, `#sorted` and `#current` are those of `Route`; the replica's `validate` accepts the headers |
| GroupActor.Group.Fetch | src/group.ts:58-105 | CLOSE is answered "OK", or 400 with the error message; the state is unchanged on an error and otherwise is `Close`'s new state. Any other request is forwarded as `Handoff` states: to the replica `Decide` picks, with the new table, mapping, `#sorted`, `#current` and introductions |
| ReplicaActor.Admit | src/replica.ts:144-150 | the client's entry (new if absent, with group `gid`) gains the socket; no other entry changes |
| ReplicaActor.Release | src/replica.ts:114-124 | with fewer than two sockets the entry is deleted and the client is empty; otherwise only this socket leaves the entry; the client is empty iff it has no entry afterwards |
| ReplicaActor.AdmitKeepsPool | src/replica.ts:144-150 | admitting a fresh socket keeps clients' socket sets disjoint and non-empty |
| ReplicaActor.ReleaseKeepsPool | src/replica.ts:114-124 | the cleanup keeps clients' socket sets disjoint and non-empty |
| ReplicaActor.ReleaseUndoesAdmit | src/replica.ts:114-150 | closing the socket a connect just added restores the pool, and the client is reported empty iff it was new |
| ReplicaActor.AudienceMembers | src/replica.ts:254-262 | `#emit` reaches a pooled socket iff `self` is set or the socket is not the sender's, and reaches no other socket |
| ReplicaActor.RelayExcludesSender | src/replica.ts:200-203 | a relayed broadcast skips the sender's sockets and reaches every other client's |
| ReplicaActor.Dispatch | src/replica.ts:283-309 | one request per neighbour, in order, on the route with the body; each neighbour's `validate` accepts it with the sender (or this replica, for an empty sender) as request id, plus the target when one is given |
| ReplicaActor.CloseNotice | src/replica.ts:334-345 | the notice goes to the group on CLOSE; ISEMPTY is "1" iff empty; the group accepts it when it knows this replica, but `validate` refuses an empty client id |
| ReplicaActor.GossipReply | src/replica.ts:224-235 | no hook or a throwing hook gives 400 with the stack text; otherwise 200 with a JSON content type and the payload as body |
| ReplicaActor.Replica.constructor | src/replica.ts:33-41 | empty pool and neighbours |
| ReplicaActor.Replica.Send | src/replica.ts:21-23 | each socket of the set gets the message exactly once, and the earlier sends are kept |
| ReplicaActor.Replica.Emit | src/replica.ts:254-262 | the new sends deliver the message exactly once to each socket of the audience |
| ReplicaActor.Replica.EmitStep | src/replica.ts:259-261 | one round of the loop adds one client's sockets (if not skipped) to the audience reached |
| ReplicaActor.Replica.Broadcast | src/replica.ts:267-278 | local delivery to the audience, then one BROADCAST request per neighbour |
| ReplicaActor.Replica.Whisper | src/replica.ts:314-329 | nothing when the sender is the target; delivery to a pooled target's sockets; otherwise one WHISPER request per neighbour, with TARGETID |
| ReplicaActor.Replica.Gossip | src/replica.ts:167-179 | no request iff there are no neighbours; otherwise one GOSSIP request per neighbour, sent as this replica |
| ReplicaActor.Replica.Connect | src/replica.ts:76-157 | pre-check failures and `validate` errors answer with `abort` and leave the pool unchanged; otherwise 101 and the socket is admitted |
| ReplicaActor.Replica.SocketClosed | src/replica.ts:109-129 | the pool is cleaned up, the group gets the close notice with the resulting ISEMPTY, and the socket is closed |
| ReplicaActor.Replica.Fetch | src/replica.ts:184-249 | `validate` errors answer 400; NEIGHBOR adds the neighbour; BROADCAST emits to all but the sender; WHISPER needs a target and delivers only to a pooled one; GOSSIP answers through the hook; otherwise the `receive` result, with a close notice (ISEMPTY "1") unless the status is 101 |
| GatewayActor.ShardKey | src/gateway.ts:83 | a `sid:` key, never a `rid:` key, that strips back to the shard id |
| GatewayActor.ReqKey | src/gateway.ts:82 | a `rid:` key, never a `sid:` key |
| GatewayActor.ShardKeyStrip | src/gateway.ts:95 | stripping `sid:` and adding it back gives the same key |
| GatewayActor.ListingTable | src/gateway.ts:163-168 | the listed `sid:` entries form a count table with distinct keys |
| GatewayActor.ShardsAvailableFacts | src/gateway.ts:157-192 | `#sorted` holds exactly the `sid:` keys below the limit, once each, by ascending count, head least loaded; the bucket returned is its head |
| GatewayActor.LeastShardHead | src/gateway.ts:176-191 | the bucket returned is `#sorted`'s head with its stored, non-negative count |
| GatewayActor.StrippedIds | src/gateway.ts:160-168 | `#sids` holds each listed key without its prefix, once |
| GatewayActor.GatewaySticky | src/gateway.ts:82-88 | a client whose stored shard has room stays on it with one more session |
| GatewayActor.GatewayRebalanced | src/gateway.ts:89-96 | when the candidate is refused and `#sorted` is non-empty, the least-loaded shard below the limit, if any, is chosen, named without its prefix |
| GatewayActor.GatewayMinted | src/gateway.ts:92-101 | a shard is minted iff the candidate is refused and either `#sorted` is empty or every shard is at the limit; a minted shard has count 1 |
| GatewayActor.GatewayCapacity | src/gateway.ts:87-108 | with `limit >= 1`, the new count lies in 1..limit, and the store stays within the limit after both puts |
| GatewayActor.GatewayIntroduceRefused | src/gateway.ts:142-150 | the introduction carries SHARDID, NEIGHBORID and GATEWAYID to the target on NEIGHBOR, and the shard's check refuses it as Missing Request ID |
| GatewayActor.GatewayIntroductionsPairs | src/gateway.ts:129-136 | two calls per known shard, in order: the newcomer to it, then it to the newcomer |
| GatewayActor.GatewayCloseCheck | src/gateway.ts:195-200 | in order: the header check's error, Mismatch Gateway ID, Unknown Shard ID; it succeeds iff all pass |
| GatewayActor.CloseWrites | src/gateway.ts:202-208 | the shard's count drops by one, floored at 0; the client's entry goes only when ISEMPTY is "1"; no other key changes |
| GatewayActor.CloseKeepsLayout | src/gateway.ts:198-208 | `#close` keeps the store layout and the set of `sid:` keys |
| GatewayActor.CollectShards | src/gateway.ts:160-168 | the loop makes one tuple per listed entry and collects the stripped ids |
| GatewayActor.Gateway.constructor | src/gateway.ts:27-35 | empty `#sids` and `#sorted`; no current shard |
| GatewayActor.Gateway.Sort | src/gateway.ts:157-192 | `#sorted` and `#sids` become the listing's available keys and stripped ids; the bucket is the least-loaded one |
| GatewayActor.Gateway.Welcome | src/gateway.ts:123-137 | the newcomer heads `#sorted` and joins `#sids`, and the introductions go to the shards known before it |
| GatewayActor.Gateway.Pick | src/gateway.ts:81-102 | the shard and count chosen are those of `GatewayDecide`; `#sids`/`#sorted` change exactly as on the path taken |
| GatewayActor.Gateway.Fallback | src/gateway.ts:89-102 | with a non-empty `#sorted` and a shard below the limit, that least-loaded shard; otherwise the minted shard, welcomed |
| GatewayActor.Gateway.Route | src/gateway.ts:78-108 | the store records the client's shard and the new count, and `#current` is kept only while below the limit |
| GatewayActor.Gateway.Commit | src/gateway.ts:104-108 | `#current` and the two puts |
| GatewayActor.Gateway.Close | src/gateway.ts:194-215 | errors leave the state unchanged; otherwise the store is written as `CloseWrites` says, then `#sorted`/`#sids`/`#current` are recomputed |
| GatewayActor.Gateway.Release | src/gateway.ts:202-208 | the two writes of `#close`, keeping the store layout |
| GatewayActor.Gateway.Resort | src/gateway.ts:210-212 | `#current` becomes `#sorted`'s head without its prefix, or none |
| GatewayActor.Gateway.Handoff | src/gateway.ts:78-116 | the request goes to the shard `GatewayDecide` picks, with GATEWAYID, CLIENTID and SHARDID set and the introductions of a minted shard; the store gets the two puts, `#sids`/`#sorted`/`#current` change as on the path taken, and the shard's check accepts the headers |
| GatewayActor.Gateway.Fetch | src/gateway.ts:62-117 | CLOSE is answered "OK", or 400 with the error message; the state is unchanged on an error and otherwise is `Close`'s new state. Any other request is forwarded as `Handoff` states: to the shard `GatewayDecide` picks, with the new store, pointers and introductions |
| ShardActor.ShardValidate | src/shard.ts:175-187 | the checks run in order: Missing Shard ID, Mismatch Shard ID, Missing Request ID, Missing Gateway ID; it succeeds iff all pass |
| ShardActor.CloseNotice | src/shard.ts:203-211 | the notice to the gateway carries exactly GATEWAYID, CLIENTID and SHARDID |
| ShardActor.Shard.constructor | src/shard.ts:36-40 | no connections |
| ShardActor.Shard.Connect | src/shard.ts:74-142 | pre-check failures and header errors answer with `abort` and leave the connections unchanged; otherwise 101 and the new socket replaces the client's connection |
| ShardActor.Shard.Close | src/shard.ts:192-212 | an unknown client throws; otherwise its socket, if any, is closed and its gateway is notified; the entry stays |
| ShardActor.Shard.SocketClosed | src/shard.ts:106-117 | the listener's socket is closed, then `#close` runs for the client |
| ShardActor.Shard.Fetch | src/shard.ts:147-170 | header errors answer 400; otherwise the `receive` result. Unless the status is 101, `#close` runs: it closes the client's stored socket and notifies its gateway, or throws for an unknown client, and that throw replaces the response |

## Left out

- Networking, `WebSocketPair` and Durable Object stubs. A call to another actor is an `Rpc` value that the operation returns. Only the sends and `close()` calls on sockets are recorded, in `outbox` and `closed`.
- User hooks become parameters:
  - `identify` is the client id `rid`.
  - `clusterize` is the `minted` id.
  - `receive` is `received` (a response, or a thrown message).
  - `ongossip` is `gossiped`.
  - The key order of `storage.list` is `listing`.
- The state effects of the hooks are not modelled, nor any `onopen` failure.
- `onmessage` wiring and the socket handle's bound methods are not modelled.
- Asynchrony: each operation runs to completion without interleaving. The un-awaited `#welcome` is applied at once, and `Promise.all` results are not modelled.
- Gateway.Close: `validate` in this revision does not return the `sid` that src/gateway.ts:195 reads. The header-check result of the close notice is therefore an input, `closeIds`.
- JSON: the gossip payloads and `JSON.stringify` of object messages are kept as strings. `gossip` returns the requests, not the parsed replies.
- Replica.Emit, Replica.Send: the order of sends over a `Set` or `Map` is not modelled. The contracts state exactly-once delivery to the right sockets only.
- Load.SortByLoad: `Array.prototype.sort` is modelled as a stable insertion sort. Any stable sort gives the same list.
- ErrorStack: `err.stack` is modelled as `"Error: "` plus the message. Stack frames are not modelled, and neither are throws of non-`Error` values.
- A failure of `request.text()` is not modelled.
- Header names are an enumeration rather than their literal strings.
- `src/internal/headers.ts` lists only some of the keys these revisions use, so the literal header names are not part of this model.
- `load` (the stub lookup), `glue.ts`, `console.log` and the URL parsing of `pathname` are not modelled. The pathname is a field of the request.
- Strings are sequences of Unicode scalar values, so a JavaScript string holding an unpaired surrogate cannot be represented. `TextEncoder` would encode such a code unit as U+FFFD (3 bytes), and `abort`'s Content-Length for such a message is not modelled.
- Numbers are unbounded integers. Live counts never exceed `limit` (the capacity lemmas), so overflow does not arise.
