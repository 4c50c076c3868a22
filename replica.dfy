/**
 * The session actor (src/replica.ts): it upgrades client requests to
 * WebSockets, pools every client's sockets, delivers messages to its own
 * sockets and relays them to its neighbouring replicas, and tells its group
 * when a client's session ends.
 */
module ReplicaActor {
  import opened Wire
  import opened Utils
  import opened Handshake
  import GroupActor

  /** A `State` entry of the pool: the client's group and its open sockets. */
  datatype Session = Session(group: string, sockets: set<SocketId>)

  type Pool = map<string, Session>

  /** One `ws.send(msg)`. */
  datatype Delivery = Delivery(socket: SocketId, msg: string)

  // ------------------------------------------------------------- pool

  /** No socket belongs to two clients. */
  predicate Disjoint(pool: Pool) {
    forall a, b :: a in pool && b in pool && a != b ==> pool[a].sockets !! pool[b].sockets
  }

  /** Every pooled client has at least one socket. */
  predicate Occupied(pool: Pool) {
    forall r :: r in pool ==> pool[r].sockets != {}
  }

  /** `server` is not pooled yet: a new `WebSocketPair` end. */
  predicate Unused(pool: Pool, server: SocketId) {
    forall r :: r in pool ==> server !in pool[r].sockets
  }

  /**
   * The pool insert of `connect`: the client's entry (or a new one for group
   * `gid`) gains the socket `server`; no other entry changes.
   */
  function Admit(pool: Pool, rid: string, gid: string, server: SocketId): (p: Pool)
    ensures p.Keys == pool.Keys + {rid}
    ensures p[rid].group == (if rid in pool then pool[rid].group else gid)
    ensures p[rid].sockets == (if rid in pool then pool[rid].sockets else {}) + {server}
    ensures forall r :: r in pool && r != rid ==> p[r] == pool[r]
  {
    var state := if rid in pool then pool[rid] else Session(gid, {});
    pool[rid := state.(sockets := state.sockets + {server})]
  }

  /**
   * The pool cleanup of the `closer` listener for socket `server` of client
   * `rid`: with fewer than two sockets the entry goes and the client is
   * empty; otherwise only `server` leaves the entry.
   */
  function Release(pool: Pool, rid: string, server: SocketId): (r: (Pool, bool))
    ensures r.1 <==> rid !in pool || |pool[rid].sockets| < 2
    ensures r.1 <==> rid !in r.0
    ensures r.1 ==> r.0 == pool - {rid}
    ensures !r.1 ==> r.0 == pool[rid := pool[rid].(sockets := pool[rid].sockets - {server})]
  {
    if rid !in pool || |pool[rid].sockets| < 2 then (pool - {rid}, true)
    else (pool[rid := pool[rid].(sockets := pool[rid].sockets - {server})], false)
  }

  /** Connecting a fresh socket keeps sockets of different clients apart and every entry occupied. */
  lemma AdmitKeepsPool(pool: Pool, rid: string, gid: string, server: SocketId)
    requires Disjoint(pool) && Occupied(pool) && Unused(pool, server)
    ensures Disjoint(Admit(pool, rid, gid, server)) && Occupied(Admit(pool, rid, gid, server))
  {
    var p := Admit(pool, rid, gid, server);
    forall a, b | a in p && b in p && a != b
      ensures p[a].sockets !! p[b].sockets
    {
      if a != rid && b != rid {
      } else if a == rid {
        assert server !in p[b].sockets;
      } else {
        assert server !in p[a].sockets;
      }
    }
  }

  /** Closing a socket keeps sockets of different clients apart and every entry occupied. */
  lemma ReleaseKeepsPool(pool: Pool, rid: string, server: SocketId)
    requires Disjoint(pool) && Occupied(pool)
    ensures Disjoint(Release(pool, rid, server).0) && Occupied(Release(pool, rid, server).0)
  {
    var p := Release(pool, rid, server).0;
    if rid in pool && |pool[rid].sockets| >= 2 {
      var rest := pool[rid].sockets - {server};
      assert |rest| >= |pool[rid].sockets| - 1;
      assert rest != {};
    }
  }

  /**
   * Closing the socket a connect just added undoes it: the pool is as before,
   * and the client counts as empty exactly when it had no entry before.
   */
  lemma ReleaseUndoesAdmit(pool: Pool, rid: string, gid: string, server: SocketId)
    requires Occupied(pool) && Unused(pool, server)
    ensures Release(Admit(pool, rid, gid, server), rid, server) == (pool, rid !in pool)
  {
    var p := Admit(pool, rid, gid, server);
    if rid in pool {
      var old_ := pool[rid].sockets;
      assert old_ != {};
      assert server !in old_;
      assert |p[rid].sockets| == |old_| + 1;
      assert p[rid].sockets - {server} == old_;
      assert p[rid := p[rid].(sockets := old_)] == pool;
    } else {
      assert |p[rid].sockets| == 1;
      assert p - {rid} == pool;
    }
  }

  // --------------------------------------------------------- delivery

  /** The sockets a run of deliveries went to, in order. */
  function Targets(part: seq<Delivery>): (r: seq<SocketId>)
    ensures |r| == |part| && forall i :: 0 <= i < |part| ==> r[i] == part[i].socket
  {
    seq(|part|, i requires 0 <= i < |part| => part[i].socket)
  }

  /** `part` sends `msg` to each socket of `sockets` exactly once, and to nothing else. */
  predicate Delivers(part: seq<Delivery>, sockets: set<SocketId>, msg: string) {
    && (forall i :: 0 <= i < |part| ==> part[i].msg == msg)
    && multiset(Targets(part)) == multiset(sockets)
  }

  lemma DisjointUnion(a: set<SocketId>, b: set<SocketId>)
    requires a !! b
    ensures multiset(a + b) == multiset(a) + multiset(b)
  {
    forall x
      ensures multiset(a + b)[x] == (multiset(a) + multiset(b))[x]
    {
      if x in a {
        assert x !in b;
      }
    }
  }

  /** Two runs of deliveries to disjoint socket sets deliver once to their union. */
  lemma {:induction false} DeliversAppend(p: seq<Delivery>, q: seq<Delivery>, a: set<SocketId>, b: set<SocketId>, msg: string)
    requires Delivers(p, a, msg) && Delivers(q, b, msg) && a !! b
    ensures Delivers(p + q, a + b, msg)
  {
    assert Targets(p + q) == Targets(p) + Targets(q);
    DisjointUnion(a, b);
  }

  /** The sockets of the clients in `keys` that `#emit(sender, _, self)` reaches. */
  function AudienceOf(pool: Pool, keys: set<string>, sender: string, self: bool): set<SocketId> {
    set r, s | r in keys && r in pool && (self || r != sender) && s in pool[r].sockets :: s
  }

  lemma ConcatAssoc(a: seq<Delivery>, b: seq<Delivery>, c: seq<Delivery>)
    ensures a + b + c == a + (b + c)
  {
  }

  /** Before the first round of `#emit` nothing is delivered and nobody is reached. */
  lemma AudienceNone(pool: Pool, sender: string, self: bool, msg: string)
    ensures Delivers([], AudienceOf(pool, {}, sender, self), msg)
  {
    assert AudienceOf(pool, {}, sender, self) == {};
  }

  /** All sockets `#emit(sender, _, self)` sends to. */
  function Audience(pool: Pool, sender: string, self: bool): set<SocketId> {
    AudienceOf(pool, pool.Keys, sender, self)
  }

  /**
   * Who `#emit` reaches: a pooled socket gets the message exactly when `self`
   * is set or it is not one of the sender's.
   */
  lemma AudienceMembers(pool: Pool, sender: string, self: bool)
    requires Disjoint(pool)
    ensures forall r, s :: r in pool && s in pool[r].sockets ==>
              (s in Audience(pool, sender, self) <==> self || r != sender)
    ensures forall s :: s in Audience(pool, sender, self) ==> exists r :: r in pool && s in pool[r].sockets
  {
    forall r, s | r in pool && s in pool[r].sockets && s in Audience(pool, sender, self)
      ensures self || r != sender
    {
      var r' :| r' in pool && (self || r' != sender) && s in pool[r'].sockets;
      assert r' == r by {
        assert s in pool[r].sockets * pool[r'].sockets;
      }
    }
  }

  /** A relayed broadcast (`self` unset) never reaches the sender's own sockets. */
  lemma RelayExcludesSender(pool: Pool, sender: string)
    requires Disjoint(pool) && sender in pool
    ensures Audience(pool, sender, false) !! pool[sender].sockets
    ensures forall r :: r in pool && r != sender ==> pool[r].sockets <= Audience(pool, sender, false)
  {
    AudienceMembers(pool, sender, false);
  }

  lemma AudienceStep(pool: Pool, keys: set<string>, rid: string, sender: string, self: bool)
    requires Disjoint(pool) && keys <= pool.Keys && rid in pool && rid !in keys
    ensures AudienceOf(pool, keys + {rid}, sender, self)
              == AudienceOf(pool, keys, sender, self) + (if self || rid != sender then pool[rid].sockets else {})
    ensures AudienceOf(pool, keys, sender, self) !! pool[rid].sockets
  {
    forall s | s in AudienceOf(pool, keys, sender, self)
      ensures s !in pool[rid].sockets
    {
      var r :| r in keys && r in pool && (self || r != sender) && s in pool[r].sockets;
      assert pool[r].sockets !! pool[rid].sockets;
    }
  }

  // --------------------------------------------------------- dispatch

  /** The headers `#dispatch` sends to every neighbour, before OBJECTID. */
  function Commons(uid: string, group: string, sender: string, target: Option<string>): Headers {
    var h := map[NeighborId := uid, GroupId := group, ClientId := sender];
    if Truthy(target) then h[TargetId := target.value] else h
  }

  /**
   * `#dispatch`: one request per neighbour, in neighbour order, addressed to
   * it on `route` with `body`; each passes `validate` at its neighbour, which
   * sees the sender (or, for an empty sender, this replica) as request id and
   * the target only when one was given.
   */
  function Dispatch(uid: string, neighbors: seq<string>, group: string, sender: string,
                    target: Option<string>, route: string, body: string): (r: seq<Rpc>)
    ensures |r| == |neighbors|
    ensures forall i :: 0 <= i < |r| ==> r[i].to == neighbors[i] && r[i].route == route && r[i].body == body
    ensures forall i :: 0 <= i < |r| ==>
              Validate(r[i].headers, Some(neighbors[i]))
                == Ok(Routing(group, if sender != "" then sender else uid, neighbors[i],
                              if Truthy(target) then target else None))
  {
    var h := Commons(uid, group, sender, target);
    seq(|neighbors|, i requires 0 <= i < |neighbors| => Rpc(neighbors[i], route, h[ObjectId := neighbors[i]], body))
  }

  /** `#close(rid, gid, isEmpty)`: the notice to group `gid` that one of `rid`'s sessions here ended. */
  function CloseNotice(uid: string, rid: string, gid: string, isEmpty: bool): (r: Rpc)
    ensures r.to == gid && r.route == CLOSE
    ensures Get(r.headers, IsEmpty) == Some("1") <==> isEmpty
    // the group accepts the notice when it knows this replica ...
    ensures forall kids: map<string, int> :: rid != "" && uid in kids ==>
              GroupActor.CloseCheck(r.headers, gid, kids) == Ok(Routing(gid, rid, uid, None))
    // ... but not for an empty client id, which `validate` reads as missing
    ensures rid == "" ==> Validate(r.headers, None) == Err("Missing: Request ID")
  {
    var flag := if isEmpty then "1" else "0";
    Rpc(gid, CLOSE, map[GroupId := gid, ObjectId := uid, ClientId := rid, IsEmpty := flag], "")
  }

  /** The error the GOSSIP route throws when no `ongossip` hook is installed. */
  const MISSING_ONGOSSIP: string := "Missing: `ongossip` handler"

  /** The GOSSIP route's answer, given what `ongossip` did: absent, threw, or returned a payload. */
  function GossipReply(gossiped: Option<Result<Option<string>>>): (res: Response)
    ensures gossiped.None? ==> res.status == 400 && res.body == Some(ErrorStack(MISSING_ONGOSSIP))
    ensures gossiped.Some? && gossiped.value.Err? ==>
              res.status == 400 && res.body == Some(ErrorStack(gossiped.value.message))
    ensures gossiped.Some? && gossiped.value.Ok? ==>
              res.status == 200 && res.body == gossiped.value.value && res.headers == map["Content-Type" := "application/json"]
  {
    match gossiped
    case None => Thrown(MISSING_ONGOSSIP)
    case Some(Err(m)) => Thrown(m)
    case Some(Ok(payload)) => Response(200, "", payload, map["Content-Type" := "application/json"])
  }

  class Replica {
    const uid: string

    var pool: Pool
    /** `#neighbors`, in insertion order. */
    var neighbors: seq<string>
    /** Every `ws.send` so far, in order. */
    var outbox: seq<Delivery>
    /** The sockets `server.close()` was called on, in order. */
    var closed: seq<SocketId>

    ghost predicate Valid()
      reads this
    {
      Disjoint(pool) && Occupied(pool) && NoDup(neighbors)
    }

    constructor (uid: string)
      ensures Valid() && this.uid == uid
      ensures pool == map[] && neighbors == [] && outbox == [] && closed == []
    {
      this.uid := uid;
      pool, neighbors, outbox, closed := map[], [], [], [];
    }

    /** `send(conns, msg)`: one delivery of `msg` to each socket of `sockets`. */
    method Send(sockets: set<SocketId>, msg: string)
      modifies this`outbox
      ensures |outbox| >= |old(outbox)| && outbox[..|old(outbox)|] == old(outbox)
      ensures Delivers(outbox[|old(outbox)|..], sockets, msg)
    {
      ghost var start := |outbox|;
      var todo := sockets;
      while todo != {}
        invariant todo <= sockets
        invariant |outbox| >= start && outbox[..start] == old(outbox)
        invariant Delivers(outbox[start..], sockets - todo, msg)
        decreases todo
      {
        var s :| s in todo;
        ghost var part := outbox[start..];
        outbox := outbox + [Delivery(s, msg)];
        assert outbox[start..] == part + [Delivery(s, msg)];
        DeliversAppend(part, [Delivery(s, msg)], sockets - todo, {s}, msg);
        assert (sockets - todo) + {s} == sockets - (todo - {s});
        todo := todo - {s};
      }
    }

    /**
     * `#emit(sender, msg, self)`: every socket of every pooled client gets
     * `msg` once, except the sender's own sockets unless `self` is set.
     */
    method Emit(sender: string, msg: string, self: bool)
      requires Disjoint(pool)
      modifies this`outbox
      ensures |outbox| >= |old(outbox)| && outbox[..|old(outbox)|] == old(outbox)
      ensures Delivers(outbox[|old(outbox)|..], Audience(pool, sender, self), msg)
    {
      var todo := pool.Keys;
      ghost var done: set<string> := {};
      ghost var delivered: seq<Delivery> := [];
      AudienceNone(pool, sender, self, msg);
      while todo != {}
        invariant todo <= pool.Keys && done == pool.Keys - todo
        invariant outbox == old(outbox) + delivered
        invariant Delivers(delivered, AudienceOf(pool, done, sender, self), msg)
        decreases todo
      {
        var rid :| rid in todo;
        ghost var sent := EmitStep(rid, sender, msg, self, delivered, done);
        ConcatAssoc(old(outbox), delivered, sent);
        todo, done, delivered := todo - {rid}, done + {rid}, delivered + sent;
      }
      assert done == pool.Keys;
      assert outbox[|old(outbox)|..] == delivered;
    }

    /** One round of the `#emit` loop: client `rid`'s sockets join the audience reached so far. */
    method EmitStep(rid: string, sender: string, msg: string, self: bool, ghost delivered: seq<Delivery>, ghost done: set<string>)
      returns (ghost sent: seq<Delivery>)
      requires Disjoint(pool) && done <= pool.Keys && rid in pool && rid !in done
      requires Delivers(delivered, AudienceOf(pool, done, sender, self), msg)
      modifies this`outbox
      ensures outbox == old(outbox) + sent
      ensures Delivers(delivered + sent, AudienceOf(pool, done + {rid}, sender, self), msg)
    {
      ghost var reached := AudienceOf(pool, done, sender, self);
      AudienceStep(pool, done, rid, sender, self);
      if self || rid != sender {
        ghost var mid := |outbox|;
        var sockets := pool[rid].sockets;
        Send(sockets, msg);
        sent := outbox[mid..];
        assert outbox == old(outbox) + sent;
        DeliversAppend(delivered, sent, reached, sockets, msg);
      } else {
        sent := [];
        assert delivered + sent == delivered;
        assert AudienceOf(pool, done + {rid}, sender, self) == reached;
      }
    }

    /**
     * `#broadcast(group, sender, msg, self)`: `#emit` here, then `#dispatch`
     * on BROADCAST to every neighbour.
     */
    method Broadcast(group: string, sender: string, msg: string, self: bool) returns (rpcs: seq<Rpc>)
      requires Valid()
      modifies this`outbox
      ensures |outbox| >= |old(outbox)| && outbox[..|old(outbox)|] == old(outbox)
      ensures Delivers(outbox[|old(outbox)|..], Audience(pool, sender, self), msg)
      ensures rpcs == Dispatch(uid, neighbors, group, sender, None, BROADCAST, msg)
    {
      Emit(sender, msg, self);
      rpcs := Dispatch(uid, neighbors, group, sender, None, BROADCAST, msg);
    }

    /**
     * `#whisper(group, sender, target, msg)`: nothing when the sender is the
     * target; delivery to the target's sockets when it is pooled here;
     * otherwise `#dispatch` on WHISPER with TARGETID.
     */
    method Whisper(group: string, sender: string, target: string, msg: string) returns (rpcs: seq<Rpc>)
      modifies this`outbox
      ensures sender == target ==> rpcs == [] && outbox == old(outbox)
      ensures sender != target && target in pool ==>
                && rpcs == []
                && |outbox| >= |old(outbox)| && outbox[..|old(outbox)|] == old(outbox)
                && Delivers(outbox[|old(outbox)|..], pool[target].sockets, msg)
      ensures sender != target && target !in pool ==>
                rpcs == Dispatch(uid, neighbors, group, sender, Some(target), WHISPER, msg) && outbox == old(outbox)
    {
      rpcs := [];
      if sender == target {
        return;
      }
      if target in pool {
        Send(pool[target].sockets, msg);
        return;
      }
      rpcs := Dispatch(uid, neighbors, group, sender, Some(target), WHISPER, msg);
    }

    /**
     * `gossip(msg)`: no request at all without neighbours; otherwise one
     * GOSSIP request per neighbour, sent as this replica.
     */
    function Gossip(body: string): (rpcs: seq<Rpc>)
      reads this
      ensures rpcs == [] <==> neighbors == []
      ensures rpcs == Dispatch(uid, neighbors, "Q", uid, None, GOSSIP, body)
    {
      if |neighbors| < 1 then [] else Dispatch(uid, neighbors, "Q", uid, None, GOSSIP, body)
    }

    /**
     * `connect(req)`: the RFC 6455 pre-checks, then `validate` against this
     * replica's id; on success the socket `server` joins the client's entry.
     */
    method Connect(req: Request, server: SocketId) returns (res: Response)
      requires Valid() && Unused(pool, server)
      modifies this`pool
      ensures Valid()
      ensures UpgradeCheck(req).Some? ==> res == Abort(UpgradeCheck(req).value, None) && pool == old(pool)
      ensures UpgradeCheck(req).None? && Validate(req.headers, Some(uid)).Err? ==>
                res == Abort(400, Some(Validate(req.headers, Some(uid)).message)) && pool == old(pool)
      ensures UpgradeCheck(req).None? && Validate(req.headers, Some(uid)).Ok? ==>
                var ids := Validate(req.headers, Some(uid)).value;
                res == Switching && pool == Admit(old(pool), ids.rid, ids.gid, server)
    {
      var code := UpgradeCheck(req);
      if code.Some? {
        return Abort(code.value, None);
      }
      var v := Validate(req.headers, Some(uid));
      if v.Err? {
        return Abort(400, Some(v.message));
      }
      AdmitKeepsPool(pool, v.value.rid, v.value.gid, server);
      pool := Admit(pool, v.value.rid, v.value.gid, server);
      res := Switching;
    }

    /**
     * The `closer` listener of socket `server` of client `rid` in group `gid`
     * (after the `onclose`/`onerror` hook): the pool cleanup, the close
     * notice to the group, then `server.close()`.
     */
    method SocketClosed(rid: string, gid: string, server: SocketId) returns (notice: Rpc)
      requires Valid()
      modifies this`pool, this`closed
      ensures Valid()
      ensures pool == Release(old(pool), rid, server).0
      ensures notice == CloseNotice(uid, rid, gid, Release(old(pool), rid, server).1)
      ensures closed == old(closed) + [server]
    {
      ReleaseKeepsPool(pool, rid, server);
      var isEmpty;
      pool, isEmpty := Release(pool, rid, server).0, Release(pool, rid, server).1;
      notice := CloseNotice(uid, rid, gid, isEmpty);
      closed := closed + [server];
    }

    /**
     * `fetch`: a request failing `validate` is answered 400. The internal
     * routes NEIGHBOR, BROADCAST, WHISPER and GOSSIP are handled here; any
     * other request goes to the `receive` hook (`received` is what it
     * returned or threw), and a final status other than 101 sends the group
     * a close notice for the client.
     */
    method Fetch(req: Request, received: Result<Response>, gossiped: Option<Result<Option<string>>>)
      returns (res: Response, rpcs: seq<Rpc>)
      requires Valid()
      modifies this`neighbors, this`outbox
      ensures Valid()
      ensures |outbox| >= |old(outbox)| && outbox[..|old(outbox)|] == old(outbox)
      ensures Validate(req.headers, Some(uid)).Err? ==>
                && res == Abort(400, Some(Validate(req.headers, Some(uid)).message)) && rpcs == []
                && neighbors == old(neighbors) && outbox == old(outbox)
      ensures Validate(req.headers, Some(uid)).Ok? && req.pathname == NEIGHBOR ==>
                && res == EmptyResponse && rpcs == [] && outbox == old(outbox)
                && neighbors == AddLast(old(neighbors), Validate(req.headers, Some(uid)).value.rid)
      ensures Validate(req.headers, Some(uid)).Ok? && req.pathname == BROADCAST ==>
                && res == EmptyResponse && rpcs == [] && neighbors == old(neighbors)
                && Delivers(outbox[|old(outbox)|..], Audience(pool, Validate(req.headers, Some(uid)).value.rid, false), req.body)
      ensures Validate(req.headers, Some(uid)).Ok? && req.pathname == WHISPER ==>
                var tid := Validate(req.headers, Some(uid)).value.tid;
                && rpcs == [] && neighbors == old(neighbors)
                && (!Truthy(tid) ==> res == Thrown("Missing: Target ID") && outbox == old(outbox))
                && (Truthy(tid) ==> res == EmptyResponse)
                && (Truthy(tid) && tid.value in pool ==> Delivers(outbox[|old(outbox)|..], pool[tid.value].sockets, req.body))
                && (Truthy(tid) && tid.value !in pool ==> outbox == old(outbox))
      ensures Validate(req.headers, Some(uid)).Ok? && req.pathname == GOSSIP ==>
                res == GossipReply(gossiped) && rpcs == [] && neighbors == old(neighbors) && outbox == old(outbox)
      ensures Validate(req.headers, Some(uid)).Ok? && req.pathname !in {NEIGHBOR, BROADCAST, WHISPER, GOSSIP} ==>
                var ids := Validate(req.headers, Some(uid)).value;
                && res == ReceiveResult(received) && neighbors == old(neighbors) && outbox == old(outbox)
                && rpcs == (if res.status != 101 then [CloseNotice(uid, ids.rid, ids.gid, true)] else [])
    {
      rpcs := [];
      var v := Validate(req.headers, Some(uid));
      if v.Err? {
        return Abort(400, Some(v.message)), [];
      }
      var ids := v.value;
      if req.pathname == NEIGHBOR {
        neighbors := AddLast(neighbors, ids.rid);
        return EmptyResponse, [];
      }
      if req.pathname == BROADCAST {
        Emit(ids.rid, req.body, false);
        return EmptyResponse, [];
      }
      if req.pathname == WHISPER {
        if !Truthy(ids.tid) {
          return Thrown("Missing: Target ID"), [];
        }
        if ids.tid.value in pool {
          Send(pool[ids.tid.value].sockets, req.body);
        }
        return EmptyResponse, [];
      }
      if req.pathname == GOSSIP {
        return GossipReply(gossiped), [];
      }
      res := ReceiveResult(received);
      if res.status != 101 {
        rpcs := [CloseNotice(uid, ids.rid, ids.gid, true)];
      }
    }
  }
}
