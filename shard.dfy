/**
 * The session actor of the earlier revision (src/shard.ts): it upgrades a
 * client's request to a WebSocket, remembers one connection per client id
 * together with the gateway that routed it, and tells that gateway when the
 * client is gone.
 */
module ShardActor {
  import opened Wire
  import opened Utils
  import opened Handshake

  /** A `State` entry of `conn`: the routing gateway and the client's socket. */
  datatype Conn = Conn(gateway: string, socket: Option<SocketId>)

  /** The identifiers `#validate` returns. */
  datatype ShardRouting = ShardRouting(sid: string, rid: string, gid: string)

  /** The path the shard posts its close notice to. */
  const CLOSE_PATH: string := "/$/close"

  /**
   * `#validate(req)`: SHARDID must be present and equal this shard's id, then
   * CLIENTID and GATEWAYID must be present, checked in that order.
   */
  function ShardValidate(h: Headers, uid: string): (r: Result<ShardRouting>)
    ensures ShardId !in h ==> r == Err("Missing: Shard ID")
    ensures ShardId in h && h[ShardId] != uid ==> r == Err("Mismatch: Shard ID")
    ensures ShardId in h && h[ShardId] == uid && ClientId !in h ==> r == Err("Missing: Request ID")
    ensures ShardId in h && h[ShardId] == uid && ClientId in h && GatewayId !in h ==> r == Err("Missing: Gateway ID")
    ensures r.Ok? <==> ShardId in h && h[ShardId] == uid && ClientId in h && GatewayId in h
    ensures r.Ok? ==> r.value == ShardRouting(uid, h[ClientId], h[GatewayId])
  {
    var sid := Get(h, ShardId);
    if sid.None? then Err("Missing: Shard ID")
    else if sid.value != uid then Err("Mismatch: Shard ID")
    else
      var rid := Get(h, ClientId);
      if rid.None? then Err("Missing: Request ID")
      else
        var gid := Get(h, GatewayId);
        if gid.None? then Err("Missing: Gateway ID")
        else Ok(ShardRouting(sid.value, rid.value, gid.value))
  }

  /** What the shard's close notice for client `reqid` carries, sent to gateway `gateway`. */
  function CloseNotice(uid: string, gateway: string, reqid: string): (r: Rpc)
    ensures r.to == gateway && r.route == CLOSE_PATH
    ensures r.headers.Keys == {GatewayId, ClientId, ShardId}
    ensures r.headers[GatewayId] == gateway && r.headers[ClientId] == reqid && r.headers[ShardId] == uid
  {
    Rpc(gateway, CLOSE_PATH, map[GatewayId := gateway, ClientId := reqid, ShardId := uid], "")
  }

  class Shard {
    const uid: string

    /** `conn`: client id to its gateway and socket. */
    var conn: map<string, Conn>
    /** The sockets `close()` was called on, in order. */
    var closed: seq<SocketId>

    constructor (uid: string)
      ensures this.uid == uid && conn == map[] && closed == []
    {
      this.uid := uid;
      conn, closed := map[], [];
    }

    /**
     * `connect(req)`: the RFC 6455 pre-checks, then `#validate`; on success
     * the socket `server` replaces whatever connection the client had.
     */
    method Connect(req: Request, server: SocketId) returns (res: Response)
      modifies this`conn
      ensures UpgradeCheck(req).Some? ==> res == Abort(UpgradeCheck(req).value, None) && conn == old(conn)
      ensures UpgradeCheck(req).None? && ShardValidate(req.headers, uid).Err? ==>
                res == Abort(400, Some(ShardValidate(req.headers, uid).message)) && conn == old(conn)
      ensures UpgradeCheck(req).None? && ShardValidate(req.headers, uid).Ok? ==>
                var ids := ShardValidate(req.headers, uid).value;
                res == Switching && conn == old(conn)[ids.rid := Conn(ids.gid, Some(server))]
    {
      var code := UpgradeCheck(req);
      if code.Some? {
        return Abort(code.value, None);
      }
      var v := ShardValidate(req.headers, uid);
      if v.Err? {
        return Abort(400, Some(v.message));
      }
      conn := conn[v.value.rid := Conn(v.value.gid, Some(server))];
      res := Switching;
    }

    /**
     * `#close(reqid)`: closes the client's stored socket and notifies its
     * gateway; the entry itself stays in `conn`. An unknown client throws.
     */
    method Close(reqid: string) returns (r: Result<Rpc>)
      modifies this`closed
      ensures reqid !in conn ==> r == Err("TODO: what to do?") && closed == old(closed)
      ensures reqid in conn ==>
                && r == Ok(CloseNotice(uid, conn[reqid].gateway, reqid))
                && closed == old(closed) + (if conn[reqid].socket.Some? then [conn[reqid].socket.value] else [])
    {
      if reqid !in conn {
        return Err("TODO: what to do?");
      }
      var c := conn[reqid];
      if c.socket.Some? {
        closed := closed + [c.socket.value];
      }
      r := Ok(CloseNotice(uid, c.gateway, reqid));
    }

    /**
     * The `closer` listener of the socket `server` of client `rid` (after the
     * `onclose`/`onerror` hook): `server.close()`, then `#close(rid)`, which
     * closes whichever socket `conn` now holds for `rid`.
     */
    method SocketClosed(rid: string, server: SocketId) returns (r: Result<Rpc>)
      modifies this`closed
      ensures rid !in conn ==> r == Err("TODO: what to do?") && closed == old(closed) + [server]
      ensures rid in conn ==>
                && r == Ok(CloseNotice(uid, conn[rid].gateway, rid))
                && closed == old(closed) + [server] + (if conn[rid].socket.Some? then [conn[rid].socket.value] else [])
    {
      closed := closed + [server];
      r := Close(rid);
    }

    /**
     * `fetch`: a request that fails `#validate` is answered 400; otherwise
     * `received` is what the `receive` hook returned or threw, and any final
     * status other than 101 runs `#close(rid)`, whose throw replaces the
     * response.
     */
    method Fetch(req: Request, received: Result<Response>) returns (r: Result<Response>, notice: Option<Rpc>)
      modifies this`closed
      ensures ShardValidate(req.headers, uid).Err? ==>
                && r == Ok(Abort(400, Some(ShardValidate(req.headers, uid).message)))
                && notice == None && closed == old(closed)
      ensures ShardValidate(req.headers, uid).Ok? ==>
                var rid := ShardValidate(req.headers, uid).value.rid;
                var res := ReceiveResult(received);
                if res.status == 101 then r == Ok(res) && notice == None && closed == old(closed)
                else if rid in conn then
                  && r == Ok(res) && notice == Some(CloseNotice(uid, conn[rid].gateway, rid))
                  && closed == old(closed) + (if conn[rid].socket.Some? then [conn[rid].socket.value] else [])
                else r == Err("TODO: what to do?") && notice == None && closed == old(closed)
    {
      var v := ShardValidate(req.headers, uid);
      if v.Err? {
        return Ok(Abort(400, Some(v.message))), None;
      }
      var res := ReceiveResult(received);
      notice := None;
      r := Ok(res);
      if res.status != 101 {
        var c := Close(v.value.rid);
        if c.Err? {
          r := Err(c.message);
        } else {
          notice := Some(c.value);
        }
      }
    }
  }
}
