/**
 * The routing actor (src/group.ts): assigns each client to a replica, keeps a
 * live-session count per replica under `limit`, mints replicas on demand and
 * introduces every new replica to the ones it already knows.
 */
module GroupActor {
  import opened Wire
  import opened Utils
  import opened Load

  /** `mapping.get(rid) || current || sorted[0]`: the replica tried first. */
  function Candidate(mapping: map<string, string>, rid: string, current: Option<string>, sorted: seq<string>): Option<string> {
    Or(Or(Get(mapping, rid), current), First(sorted))
  }

  /** `alive != null && limit >= ++alive`: the candidate has a count and one more session fits. */
  predicate Accepts(kids: map<string, int>, limit: int, cand: Option<string>) {
    cand.Some? && cand.value in kids && kids[cand.value] + 1 <= limit
  }

  /** `#introduce(stranger, target)`: tells replica `target` about `stranger`. */
  function Introduce(gid: string, stranger: string, target: string): Rpc {
    Rpc(target, NEIGHBOR, map[ObjectId := target, NeighborId := stranger, GroupId := gid], "")
  }

  /** The introduction goes to `target` on NEIGHBOR, which accepts it as addressed to itself and learns the stranger's id. */
  lemma IntroduceAccepted(gid: string, stranger: string, target: string)
    ensures Introduce(gid, stranger, target).to == target && Introduce(gid, stranger, target).route == NEIGHBOR
    ensures Validate(Introduce(gid, stranger, target).headers, Some(target)) == Ok(Routing(gid, stranger, target, None))
  {
  }

  /** The calls `#welcome(nid)` issues: for each known replica, `nid` to it, then it to `nid`. */
  function Introductions(gid: string, nid: string, items: seq<string>): seq<Rpc> {
    if items == [] then []
    else [Introduce(gid, nid, items[0]), Introduce(gid, items[0], nid)] + Introductions(gid, nid, items[1..])
  }

  /** Two calls per known replica, in order: the newcomer to it, then it to the newcomer. */
  lemma {:induction false} IntroductionsPairs(gid: string, nid: string, items: seq<string>)
    ensures |Introductions(gid, nid, items)| == 2 * |items|
    ensures forall i :: 0 <= i < |items| ==>
              && Introductions(gid, nid, items)[2 * i] == Introduce(gid, nid, items[i])
              && Introductions(gid, nid, items)[2 * i + 1] == Introduce(gid, items[i], nid)
  {
    if items != [] {
      IntroductionsPairs(gid, nid, items[1..]);
      var rs, rest := Introductions(gid, nid, items), Introductions(gid, nid, items[1..]);
      forall i | 1 <= i < |items|
        ensures rs[2 * i] == Introduce(gid, nid, items[i]) && rs[2 * i + 1] == Introduce(gid, items[i], nid)
      {
        assert rs[2 * i] == rest[2 * (i - 1)] && rs[2 * i + 1] == rest[2 * (i - 1) + 1];
      }
    }
  }

  /** A new replica is introduced both ways to every earlier replica, and nothing else is sent. */
  lemma IntroductionsBothWays(gid: string, nid: string, items: seq<string>)
    ensures forall r :: r in Introductions(gid, nid, items) <==>
              exists k :: k in items && (r == Introduce(gid, nid, k) || r == Introduce(gid, k, nid))
  {
    IntroductionsPairs(gid, nid, items);
    var rs := Introductions(gid, nid, items);
    forall r | r in rs
      ensures exists k :: k in items && (r == Introduce(gid, nid, k) || r == Introduce(gid, k, nid))
    {
      var j :| 0 <= j < |rs| && rs[j] == r;
      var i := j / 2;
      assert j == 2 * i || j == 2 * i + 1;
      assert items[i] in items;
    }
    forall k | k in items
      ensures Introduce(gid, nid, k) in rs && Introduce(gid, k, nid) in rs
    {
      var i :| 0 <= i < |items| && items[i] == k;
      assert rs[2 * i] == Introduce(gid, nid, k);
      assert rs[2 * i + 1] == Introduce(gid, k, nid);
    }
  }

  /**
   * The routing decision of `fetch` (src/group.ts:74-92): the candidate when
   * one more session fits; else, if the cached list `cached` is non-empty,
   * the least-loaded replica below the limit; else the minted replica.
   */
  function Decide(order: seq<string>, kids: map<string, int>, limit: int,
                  cand: Option<string>, cached: seq<string>, minted: string): Decision
    requires forall id :: id in order ==> id in kids
  {
    if Accepts(kids, limit, cand) then Decision(cand.value, kids[cand.value] + 1, Kept)
    else
      var pair := if cached != [] then Head(Eligible(SortByLoad(EntriesOf(order, kids)), limit)) else None;
      if pair.Some? then Decision(pair.value.id, pair.value.live + 1, Rebalanced)
      else Decision(minted, 1, Minted)
  }

  /** Stickiness: a client whose replica has room stays on it, one session more. */
  lemma DecideSticky(order: seq<string>, kids: map<string, int>, limit: int, mapping: map<string, string>,
                     rid: string, current: Option<string>, cached: seq<string>, minted: string)
    requires TableValid(order, kids)
    requires rid in mapping && mapping[rid] != "" && mapping[rid] in kids && kids[mapping[rid]] < limit
    ensures var d := Decide(order, kids, limit, Candidate(mapping, rid, current, cached), cached, minted);
      d == Decision(mapping[rid], kids[mapping[rid]] + 1, Kept)
  {
  }

  /**
   * When the candidate does not fit and the cached list is non-empty, a
   * replica below the limit, if any, is taken: the least loaded one.
   */
  lemma DecideRebalanced(order: seq<string>, kids: map<string, int>, limit: int,
                         cand: Option<string>, cached: seq<string>, minted: string)
    requires TableValid(order, kids)
    requires !Accepts(kids, limit, cand) && cached != []
    requires exists id :: id in kids && kids[id] < limit
    ensures var d := Decide(order, kids, limit, cand, cached, minted);
      && d.path == Rebalanced && d.sid in kids && kids[d.sid] < limit && d.count == kids[d.sid] + 1
      && forall id :: id in kids && kids[id] < limit ==> kids[d.sid] <= kids[id]
  {
    AvailableFacts(order, kids, limit);
  }

  /**
   * A replica is minted only when the candidate does not fit and either the
   * cached list is empty or every replica is at the limit.
   */
  lemma DecideMinted(order: seq<string>, kids: map<string, int>, limit: int,
                     cand: Option<string>, cached: seq<string>, minted: string)
    requires TableValid(order, kids)
    ensures var d := Decide(order, kids, limit, cand, cached, minted);
      d.path == Minted <==>
        && !Accepts(kids, limit, cand)
        && (cached == [] || forall id :: id in kids ==> kids[id] >= limit)
    ensures var d := Decide(order, kids, limit, cand, cached, minted);
      d.path == Minted ==> d.sid == minted && d.count == 1
  {
    AvailableFacts(order, kids, limit);
  }

  /** No replica holds more than `limit` sessions. */
  predicate WithinLimit(kids: map<string, int>, limit: int) {
    forall id :: id in kids ==> kids[id] <= limit
  }

  /** Capacity: with a positive limit, a table within the limit stays within it. */
  lemma DecideCapacity(order: seq<string>, kids: map<string, int>, limit: int,
                       cand: Option<string>, cached: seq<string>, minted: string)
    requires TableValid(order, kids)
    requires limit >= 1 && WithinLimit(kids, limit)
    ensures var d := Decide(order, kids, limit, cand, cached, minted);
      1 <= d.count <= limit && WithinLimit(kids[d.sid := d.count], limit)
  {
    AvailableFacts(order, kids, limit);
  }

  /** `#close`'s checks: `validate`, then the group id, then a known replica. */
  function CloseCheck(h: Headers, uid: string, kids: map<string, int>): (r: Result<Routing>)
    ensures Validate(h, None).Err? ==> r == Err(Validate(h, None).message)
    ensures Validate(h, None).Ok? && Validate(h, None).value.gid != uid ==> r == Err("Mismatch: Group ID")
    ensures (Validate(h, None).Ok? && Validate(h, None).value.gid == uid && Validate(h, None).value.oid !in kids)
              ==> r == Err("Unknown: Replica ID")
    ensures r.Ok? <==> Validate(h, None).Ok? && Validate(h, None).value.gid == uid && Validate(h, None).value.oid in kids
    ensures r.Ok? ==> r == Validate(h, None)
  {
    match Validate(h, None)
    case Err(m) => Err(m)
    case Ok(ids) =>
      if ids.gid != uid then Err("Mismatch: Group ID")
      else if ids.oid !in kids then Err("Unknown: Replica ID")
      else Ok(ids)
  }

  class Group {
    const uid: string
    const limit: int

    var mapping: map<string, string>
    var kids: map<string, int>
    var order: seq<string>
    var sorted: seq<string>
    var current: Option<string>

    ghost predicate Valid()
      reads this
    {
      TableValid(order, kids)
    }

    constructor (uid: string, limit: int)
      ensures Valid() && this.uid == uid && this.limit == limit
      ensures mapping == map[] && kids == map[] && order == [] && sorted == [] && current == None
    {
      this.uid := uid;
      this.limit := limit;
      mapping, kids, order, sorted, current := map[], map[], [], [], None;
    }

    /** `kids.set(id, n)`: a new id goes to the end of the iteration order. */
    method SetKid(id: string, n: int)
      requires Valid() && n >= 0
      modifies this`kids, this`order
      ensures Valid()
      ensures kids == old(kids)[id := n]
      ensures order == AddLast(old(order), id)
    {
      kids := kids[id := n];
      order := AddLast(order, id);
    }

    /**
     * `#sort`: `#sorted` becomes the replicas below the limit by ascending
     * count, and the least-loaded one is returned.
     */
    method Sort() returns (bucket: Option<Bucket>)
      requires Valid()
      modifies this`sorted
      ensures sorted == Available(order, kids, limit)
      ensures bucket == Head(Eligible(SortByLoad(EntriesOf(order, kids)), limit))
      ensures forall id :: id in sorted ==> id in kids && kids[id] < limit
      ensures bucket == if sorted == [] then None else Some(Bucket(sorted[0], kids[sorted[0]]))
    {
      var tuples := EntriesOf(order, kids);
      tuples := SortTuples(tuples);
      var list;
      list, bucket := SelectEligible(tuples, limit);
      sorted := list;
      AvailableFacts(order, kids, limit);
    }

    /** `#welcome(nid)`: the new replica heads `#sorted`, gets count 1 and is introduced around. */
    method Welcome(nid: string) returns (intros: seq<Rpc>)
      requires Valid()
      modifies this`sorted, this`kids, this`order
      ensures Valid()
      ensures sorted == [nid] + old(sorted)
      ensures kids == old(kids)[nid := 1] && order == AddLast(old(order), nid)
      ensures intros == Introductions(uid, nid, old(order))
    {
      var items := order;
      sorted := [nid] + sorted;
      SetKid(nid, 1);
      intros := Introductions(uid, nid, items);
    }

    /**
     * Lines 73-92 of `fetch`: accepts the candidate `cand` or falls back to
     * `#sort` and, failing that, to the minted replica; returns the chosen
     * replica and its new count.
     */
    method Pick(cand: Option<string>, minted: string) returns (sid: string, count: int, intros: seq<Rpc>)
      requires Valid()
      modifies this`sorted, this`kids, this`order
      ensures Valid()
      ensures var d := Decide(old(order), old(kids), limit, cand, old(sorted), minted);
        sid == d.sid && count == d.count && count >= 1
      ensures var d := Decide(old(order), old(kids), limit, cand, old(sorted), minted);
        intros == (if d.path == Minted then Introductions(uid, minted, old(order)) else [])
      ensures var d := Decide(old(order), old(kids), limit, cand, old(sorted), minted);
        && (d.path == Kept ==> sorted == old(sorted))
        && (d.path == Rebalanced ==> sorted == Available(old(order), old(kids), limit))
        && (d.path == Minted ==> sorted == [minted])
      ensures var d := Decide(old(order), old(kids), limit, cand, old(sorted), minted);
        if d.path == Minted then kids == old(kids)[minted := 1] && order == AddLast(old(order), minted)
        else kids == old(kids) && order == old(order)
    {
      var alive: Option<int> := None;
      if cand.Some? && cand.value in kids {
        alive := Some(kids[cand.value]);
      }
      if alive.Some? && limit >= alive.value + 1 {
        sid, count, intros := cand.value, alive.value + 1, [];
      } else {
        sid, count, intros := Fallback(minted);
      }
    }

    /**
     * Lines 80-92 of `fetch`, once the candidate is refused: `#sort` when
     * `#sorted` is non-empty and its least-loaded replica, else the minted one.
     */
    method Fallback(minted: string) returns (sid: string, count: int, intros: seq<Rpc>)
      requires Valid()
      modifies this`sorted, this`kids, this`order
      ensures Valid()
      ensures var pair := if old(sorted) != [] then Head(Eligible(SortByLoad(EntriesOf(old(order), old(kids))), limit)) else None;
        && (pair.Some? ==>
              && sid == pair.value.id && count == pair.value.live + 1 && count >= 1 && intros == []
              && sorted == Available(old(order), old(kids), limit) && kids == old(kids) && order == old(order))
        && (pair.None? ==>
              && sid == minted && count == 1 && intros == Introductions(uid, minted, old(order))
              && sorted == [minted] && kids == old(kids)[minted := 1] && order == AddLast(old(order), minted))
    {
      var pair: Option<Bucket> := None;
      if |sorted| > 0 {
        pair := Sort();
      }
      if pair.Some? {
        sid, count, intros := pair.value.id, pair.value.live + 1, [];
      } else {
        sid := minted;
        intros := Welcome(minted);
        count := 1;
      }
    }

    /**
     * The routing path of `fetch` for client `rid`; `minted` is what
     * `clusterize` would return should a new replica be needed.
     */
    method Route(rid: string, minted: string) returns (sid: string, intros: seq<Rpc>)
      requires Valid()
      modifies this
      ensures Valid()
      ensures var d := Decide(old(order), old(kids), limit, Candidate(old(mapping), rid, old(current), old(sorted)),
                              old(sorted), minted);
        && sid == d.sid
        && kids == old(kids)[sid := d.count] && order == AddLast(old(order), sid)
        && mapping == old(mapping)[rid := sid]
        && current == (if d.count < limit then Some(sid) else None)
        && intros == (if d.path == Minted then Introductions(uid, minted, old(order)) else [])
        && (d.path == Kept ==> sorted == old(sorted))
        && (d.path == Rebalanced ==> sorted == Available(old(order), old(kids), limit))
        && (d.path == Minted ==> sorted == [minted])
    {
      var cand := Candidate(mapping, rid, current, sorted);
      ghost var d := Decide(order, kids, limit, cand, sorted, minted);
      ghost var kids0, order0 := kids, order;
      var count;
      sid, count, intros := Pick(cand, minted);
      assert kids[sid := count] == kids0[sid := count] && AddLast(order, sid) == AddLast(order0, sid) by {
        if d.path == Minted {
          assert sid == minted && count == 1;
        }
      }
      Record(rid, sid, count);
    }

    /** Lines 94-97 of `fetch`: `#current`, the client's mapping and the replica's count. */
    method Record(rid: string, sid: string, count: int)
      requires Valid() && count >= 1
      modifies this`current, this`mapping, this`kids, this`order
      ensures Valid()
      ensures current == (if count < limit then Some(sid) else None)
      ensures mapping == old(mapping)[rid := sid]
      ensures kids == old(kids)[sid := count] && order == AddLast(old(order), sid)
    {
      current := if count < limit then Some(sid) else None;
      mapping := mapping[rid := sid];
      SetKid(sid, count);
    }

    /**
     * `#close`: a replica reports that one session of client `rid` ended.
     * The count is decremented (floored at 0), the client's assignment is
     * dropped only when ISEMPTY is "1", and the least-loaded pointers are
     * recomputed.
     */
    method Close(h: Headers) returns (r: Result<()>)
      requires Valid()
      modifies this
      ensures Valid()
      ensures r.Err? <==> CloseCheck(h, uid, old(kids)).Err?
      ensures r.Err? ==> r.message == CloseCheck(h, uid, old(kids)).message && unchanged(this)
      ensures r.Ok? ==> var ids := CloseCheck(h, uid, old(kids)).value;
                kids == old(kids)[ids.oid := Max0(old(kids)[ids.oid] - 1)] && order == old(order)
      ensures r.Ok? ==> var ids := CloseCheck(h, uid, old(kids)).value;
                mapping == (if Get(h, IsEmpty) == Some("1") then old(mapping) - {ids.rid} else old(mapping))
      ensures r.Ok? ==> sorted == Available(order, kids, limit) && current == First(sorted)
    {
      var v := CloseCheck(h, uid, kids);
      if v.Err? {
        return Err(v.message);
      }
      var ids := v.value;
      var alive := Max0(kids[ids.oid] - 1);
      SetKid(ids.oid, alive);
      if Get(h, IsEmpty) == Some("1") {
        mapping := mapping - {ids.rid};
      }
      Resort();
      r := Ok(());
    }

    /** `#sort`, then `#current` becomes the least-loaded replica below the limit, if any. */
    method Resort()
      requires Valid()
      modifies this`sorted, this`current
      ensures sorted == Available(order, kids, limit) && current == First(sorted)
    {
      var bucket := Sort();
      current := if bucket.Some? then Some(bucket.value.id) else None;
    }

    /**
     * `fetch`: the CLOSE route is answered here (errors as 400); any other
     * request is routed for client `rid` and forwarded with GROUPID, CLIENTID
     * and OBJECTID set.
     */
    method Fetch(req: Request, rid: string, minted: string) returns (out: Outcome)
      requires Valid()
      modifies this
      ensures Valid()
      ensures req.pathname == CLOSE ==>
                && out.Reply?
                && out.response == (match CloseCheck(req.headers, uid, old(kids))
                                    case Ok(_) => Response(200, "", Some("OK"), map[])
                                    case Err(m) => Abort(400, Some(m)))
      ensures req.pathname == CLOSE && CloseCheck(req.headers, uid, old(kids)).Err? ==> unchanged(this)
      ensures req.pathname == CLOSE && CloseCheck(req.headers, uid, old(kids)).Ok? ==>
                var ids := CloseCheck(req.headers, uid, old(kids)).value;
                && kids == old(kids)[ids.oid := Max0(old(kids)[ids.oid] - 1)] && order == old(order)
                && mapping == (if Get(req.headers, IsEmpty) == Some("1") then old(mapping) - {ids.rid} else old(mapping))
                && sorted == Available(order, kids, limit) && current == First(sorted)
      ensures req.pathname != CLOSE ==>
                && out.Forward? && out.request.to in kids && mapping == old(mapping)[rid := out.request.to]
                && out.request.route == req.pathname && out.request.body == req.body
                && out.request.headers == req.headers[GroupId := uid][ClientId := rid][ObjectId := out.request.to]
      // the replica chosen, the new table and pointers, and the introductions are those of the routing decision
      ensures req.pathname != CLOSE ==>
                var d := Decide(old(order), old(kids), limit, Candidate(old(mapping), rid, old(current), old(sorted)),
                                old(sorted), minted);
                && out.Forward? && out.request.to == d.sid
                && kids == old(kids)[d.sid := d.count] && order == AddLast(old(order), d.sid)
                && current == (if d.count < limit then Some(d.sid) else None)
                && out.intros == (if d.path == Minted then Introductions(uid, minted, old(order)) else [])
                && (d.path == Kept ==> sorted == old(sorted))
                && (d.path == Rebalanced ==> sorted == Available(old(order), old(kids), limit))
                && (d.path == Minted ==> sorted == [minted])
      // the chosen replica accepts the forwarded headers as addressed to itself
      ensures req.pathname != CLOSE && rid != "" ==>
                Validate(out.request.headers, Some(out.request.to))
                  == Ok(Routing(uid, rid, out.request.to, Get(req.headers, TargetId)))
    {
      if req.pathname == CLOSE {
        var r := Close(req.headers);
        out := Reply(if r.Ok? then Response(200, "", Some("OK"), map[]) else Abort(400, Some(r.message)));
      } else {
        out := Handoff(req, rid, minted);
      }
    }

    /**
     * Lines 71-104 of `fetch`: routes client `rid` and forwards the request,
     * with GROUPID, CLIENTID and OBJECTID set, to the chosen replica.
     */
    method Handoff(req: Request, rid: string, minted: string) returns (out: Outcome)
      requires Valid()
      modifies this
      ensures Valid()
      ensures var d := Decide(old(order), old(kids), limit, Candidate(old(mapping), rid, old(current), old(sorted)),
                              old(sorted), minted);
        && out.Forward? && out.request.to == d.sid && out.request.to in kids
        && mapping == old(mapping)[rid := d.sid]
        && kids == old(kids)[d.sid := d.count] && order == AddLast(old(order), d.sid)
        && current == (if d.count < limit then Some(d.sid) else None)
        && out.intros == (if d.path == Minted then Introductions(uid, minted, old(order)) else [])
        && (d.path == Kept ==> sorted == old(sorted))
        && (d.path == Rebalanced ==> sorted == Available(old(order), old(kids), limit))
        && (d.path == Minted ==> sorted == [minted])
      ensures out.Forward? && out.request.route == req.pathname && out.request.body == req.body
      ensures out.Forward? && out.request.headers == req.headers[GroupId := uid][ClientId := rid][ObjectId := out.request.to]
      // the chosen replica accepts the forwarded headers as addressed to itself
      ensures out.Forward? && rid != "" ==>
                Validate(out.request.headers, Some(out.request.to))
                  == Ok(Routing(uid, rid, out.request.to, Get(req.headers, TargetId)))
    {
      var sid, intros := Route(rid, minted);
      var h := req.headers[GroupId := uid][ClientId := rid][ObjectId := sid];
      out := Forward(Rpc(sid, req.pathname, h, req.body), intros);
    }
  }
}
