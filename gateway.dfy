/**
 * The routing actor of the earlier revision (src/gateway.ts): the same
 * least-loaded assignment as the group, but kept in a key-value store, with
 * `rid:<client>` holding a client's shard and `sid:<shard>` a shard's live
 * count.
 */
module GatewayActor {
  import opened Wire
  import opened Utils
  import opened Load
  import opened ShardActor

  /** A stored value: a shard id (under `rid:` keys) or a live count (under `sid:` keys). */
  datatype Stored = Text(text: string) | Count(n: int)

  type Storage = map<string, Stored>

  predicate IsShardKey(k: string) {
    |k| >= 4 && k[..4] == "sid:"
  }

  predicate IsReqKey(k: string) {
    |k| >= 4 && k[..4] == "rid:"
  }

  /** `key.substring(4)`; shorter keys give the empty string. */
  function Substring4(k: string): string {
    if |k| >= 4 then k[4..] else ""
  }

  /** `sid:${sid}`: the key of a shard's live count. */
  function ShardKey(sid: string): (k: string)
    ensures IsShardKey(k) && !IsReqKey(k)
    ensures Substring4(k) == sid
  {
    "sid:" + sid
  }

  /** `rid:${rid}`: the key of a client's shard. */
  function ReqKey(rid: string): (k: string)
    ensures IsReqKey(k) && !IsShardKey(k)
  {
    "rid:" + rid
  }

  /** Stripping the prefix and putting it back gives the same `sid:` key. */
  lemma ShardKeyStrip(k: string)
    requires IsShardKey(k)
    ensures ShardKey(Substring4(k)) == k
  {
    assert k == k[..4] + k[4..];
  }

  /** The storage layout: `sid:` keys hold non-negative counts, `rid:` keys hold shard ids. */
  ghost predicate StorageValid(storage: Storage) {
    forall k :: k in storage ==>
      && (IsShardKey(k) ==> storage[k].Count? && storage[k].n >= 0)
      && (IsReqKey(k) ==> storage[k].Text?)
  }

  /** `storage.get<string>(k)`. */
  function TextAt(storage: Storage, k: string): (r: Option<string>)
    ensures r.Some? <==> k in storage && storage[k].Text?
    ensures r.Some? ==> r.value == storage[k].text
  {
    if k in storage && storage[k].Text? then Some(storage[k].text) else None
  }

  /** `storage.get<number>(k)`. */
  function CountAt(storage: Storage, k: string): (r: Option<int>)
    ensures r.Some? <==> k in storage && storage[k].Count?
    ensures r.Some? ==> r.value == storage[k].n
  {
    if k in storage && storage[k].Count? then Some(storage[k].n) else None
  }

  /** A key order `storage.list({ prefix: 'sid:' })` may yield: every `sid:` key exactly once. */
  ghost predicate IsListing(storage: Storage, listing: seq<string>) {
    && NoDup(listing)
    && forall k :: k in listing <==> k in storage && IsShardKey(k)
  }

  /** The live counts of the listed keys. */
  function Counts(storage: Storage, listing: seq<string>): (m: map<string, int>)
    requires forall k :: k in listing ==> k in storage && storage[k].Count?
    ensures m.Keys == set k | k in listing
    ensures forall k :: k in m ==> m[k] == storage[k].n
  {
    map k | k in listing :: storage[k].n
  }

  /** The listed keys, as a count table. */
  lemma ListingTable(storage: Storage, listing: seq<string>)
    requires StorageValid(storage) && IsListing(storage, listing)
    ensures TableValid(listing, Counts(storage, listing))
  {
  }

  /** `#sorted` after `#sort`: the `sid:` keys below the limit, least loaded first. */
  function ShardsAvailable(storage: Storage, listing: seq<string>, limit: int): seq<string>
    requires forall k :: k in listing ==> k in storage && storage[k].Count?
  {
    Available(listing, Counts(storage, listing), limit)
  }

  /** The bucket `#sort` returns. */
  function LeastShard(storage: Storage, listing: seq<string>, limit: int): Option<Bucket>
    requires forall k :: k in listing ==> k in storage && storage[k].Count?
  {
    Head(Eligible(SortByLoad(EntriesOf(listing, Counts(storage, listing))), limit))
  }

  /**
   * What `#sort` leaves in `#sorted`: exactly the `sid:` keys whose count is
   * below the limit, once each, by ascending count; the returned tuple is the
   * first of them and no more loaded than any shard below the limit.
   */
  lemma ShardsAvailableFacts(storage: Storage, listing: seq<string>, limit: int)
    requires StorageValid(storage) && IsListing(storage, listing)
    ensures forall k :: k in ShardsAvailable(storage, listing, limit) <==>
              k in storage && IsShardKey(k) && storage[k].n < limit
    ensures NoDup(ShardsAvailable(storage, listing, limit))
    ensures var a := ShardsAvailable(storage, listing, limit);
      forall i, j :: 0 <= i < j < |a| ==> storage[a[i]].n <= storage[a[j]].n
    ensures var a := ShardsAvailable(storage, listing, limit);
      a != [] ==> forall k :: k in storage && IsShardKey(k) && storage[k].n < limit ==> storage[a[0]].n <= storage[k].n
    ensures var a := ShardsAvailable(storage, listing, limit);
      LeastShard(storage, listing, limit) == if a == [] then None else Some(Bucket(a[0], storage[a[0]].n))
  {
    var counts := Counts(storage, listing);
    ListingTable(storage, listing);
    AvailableFacts(listing, counts, limit);
  }

  /** The bucket `#sort` returns is the head of `#sorted`, with its stored, non-negative count. */
  lemma LeastShardHead(storage: Storage, listing: seq<string>, limit: int)
    requires StorageValid(storage) && IsListing(storage, listing)
    ensures var a := ShardsAvailable(storage, listing, limit);
      a != [] ==> a[0] in storage && storage[a[0]].Count?
    ensures var a := ShardsAvailable(storage, listing, limit);
      LeastShard(storage, listing, limit) == if a == [] then None else Some(Bucket(a[0], storage[a[0]].n))
    ensures LeastShard(storage, listing, limit).Some? ==> LeastShard(storage, listing, limit).value.live >= 0
  {
    ShardsAvailableFacts(storage, listing, limit);
    var a := ShardsAvailable(storage, listing, limit);
    if a != [] {
      assert a[0] in a;
    }
  }

  /** Each listed key without its `sid:` prefix. */
  function StripAll(listing: seq<string>): (r: seq<string>)
    ensures |r| == |listing| && forall i :: 0 <= i < |listing| ==> r[i] == Substring4(listing[i])
  {
    seq(|listing|, i requires 0 <= i < |listing| => Substring4(listing[i]))
  }

  /** The ids `#sort` collects into `#sids`: each listed key without its prefix, once, first come first. */
  function StrippedIds(listing: seq<string>): (r: seq<string>)
    ensures NoDup(r)
    ensures forall x :: x in r <==> x in StripAll(listing)
  {
    if listing == [] then []
    else
      var init := listing[..|listing| - 1];
      assert StripAll(listing) == StripAll(init) + [Substring4(listing[|listing| - 1])];
      AddLast(StrippedIds(init), Substring4(listing[|listing| - 1]))
  }

  /** One more listed key adds its id, unless already collected. */
  lemma StrippedIdsSnoc(listing: seq<string>, n: nat)
    requires n < |listing|
    ensures StrippedIds(listing[..n + 1]) == AddLast(StrippedIds(listing[..n]), Substring4(listing[n]))
  {
    var l := listing[..n + 1];
    assert l[..|l| - 1] == listing[..n];
  }

  // ----------------------------------------------------------- routing

  /** `await storage.get('rid:' + rid) || current || sorted[0]`: the shard tried first. */
  function GatewayCandidate(storage: Storage, rid: string, current: Option<string>, sorted: seq<string>): Option<string> {
    Or(Or(TextAt(storage, ReqKey(rid)), current), First(sorted))
  }

  /** The candidate has a stored count and one more session fits. */
  predicate GatewayAccepts(storage: Storage, limit: int, cand: Option<string>) {
    cand.Some? && CountAt(storage, ShardKey(cand.value)).Some? && CountAt(storage, ShardKey(cand.value)).value + 1 <= limit
  }

  /**
   * The routing decision of `fetch` (src/gateway.ts:81-102): the candidate if
   * it fits; else, if `#sorted` was non-empty, the least-loaded listed shard
   * below the limit, its key stripped of `sid:`; else the minted shard.
   */
  function GatewayDecide(storage: Storage, limit: int, listing: seq<string>,
                         cand: Option<string>, cached: seq<string>, minted: string): Decision
    requires forall k :: k in listing ==> k in storage && storage[k].Count?
  {
    if GatewayAccepts(storage, limit, cand) then
      Decision(cand.value, CountAt(storage, ShardKey(cand.value)).value + 1, Kept)
    else
      var pair := if cached != [] then LeastShard(storage, listing, limit) else None;
      if pair.Some? then Decision(Substring4(pair.value.id), pair.value.live + 1, Rebalanced)
      else Decision(minted, 1, Minted)
  }

  /** Stickiness: a client whose stored shard has room stays on it, one session more. */
  lemma GatewaySticky(storage: Storage, limit: int, listing: seq<string>, rid: string,
                      current: Option<string>, cached: seq<string>, minted: string)
    requires StorageValid(storage) && IsListing(storage, listing)
    requires TextAt(storage, ReqKey(rid)).Some? && TextAt(storage, ReqKey(rid)).value != ""
    requires CountAt(storage, ShardKey(TextAt(storage, ReqKey(rid)).value)).Some?
    requires CountAt(storage, ShardKey(TextAt(storage, ReqKey(rid)).value)).value < limit
    ensures var s := TextAt(storage, ReqKey(rid)).value;
      GatewayDecide(storage, limit, listing, GatewayCandidate(storage, rid, current, cached), cached, minted)
        == Decision(s, storage[ShardKey(s)].n + 1, Kept)
  {
  }

  /**
   * When the candidate does not fit and `#sorted` is non-empty, a shard below
   * the limit, if any, is taken: the least loaded one, named without its prefix.
   */
  lemma GatewayRebalanced(storage: Storage, limit: int, listing: seq<string>,
                          cand: Option<string>, cached: seq<string>, minted: string)
    requires StorageValid(storage) && IsListing(storage, listing)
    requires !GatewayAccepts(storage, limit, cand) && cached != []
    requires exists k :: k in storage && IsShardKey(k) && storage[k].n < limit
    ensures var d := GatewayDecide(storage, limit, listing, cand, cached, minted);
      && d.path == Rebalanced
      && ShardKey(d.sid) in storage && storage[ShardKey(d.sid)].n < limit && d.count == storage[ShardKey(d.sid)].n + 1
      && forall k :: k in storage && IsShardKey(k) && storage[k].n < limit ==> storage[ShardKey(d.sid)].n <= storage[k].n
  {
    ShardsAvailableFacts(storage, listing, limit);
    var a := ShardsAvailable(storage, listing, limit);
    assert a != [] by {
      var k :| k in storage && IsShardKey(k) && storage[k].n < limit;
      assert k in a;
    }
    assert a[0] in a;
    ShardKeyStrip(a[0]);
  }

  /**
   * A shard is minted only when the candidate does not fit and either
   * `#sorted` is empty or every listed shard is at the limit.
   */
  lemma GatewayMinted(storage: Storage, limit: int, listing: seq<string>,
                      cand: Option<string>, cached: seq<string>, minted: string)
    requires StorageValid(storage) && IsListing(storage, listing)
    ensures var d := GatewayDecide(storage, limit, listing, cand, cached, minted);
      d.path == Minted <==>
        && !GatewayAccepts(storage, limit, cand)
        && (cached == [] || forall k :: k in storage && IsShardKey(k) ==> storage[k].n >= limit)
    ensures var d := GatewayDecide(storage, limit, listing, cand, cached, minted);
      d.path == Minted ==> d.sid == minted && d.count == 1
  {
    ShardsAvailableFacts(storage, listing, limit);
    var a := ShardsAvailable(storage, listing, limit);
    if a != [] {
      assert a[0] in a;
    }
  }

  /** No stored count exceeds `limit`. */
  predicate CountsWithin(storage: Storage, limit: int) {
    forall k :: k in storage && storage[k].Count? ==> storage[k].n <= limit
  }

  /** Capacity: with a positive limit, storage within the limit stays within it after `fetch`'s two puts. */
  lemma GatewayCapacity(storage: Storage, limit: int, listing: seq<string>, rid: string,
                        cand: Option<string>, cached: seq<string>, minted: string)
    requires StorageValid(storage) && IsListing(storage, listing)
    requires limit >= 1 && CountsWithin(storage, limit)
    ensures var d := GatewayDecide(storage, limit, listing, cand, cached, minted);
      && 1 <= d.count <= limit
      && CountsWithin(storage[ReqKey(rid) := Text(d.sid)][ShardKey(d.sid) := Count(d.count)], limit)
  {
    ShardsAvailableFacts(storage, listing, limit);
    var a := ShardsAvailable(storage, listing, limit);
    if a != [] {
      assert a[0] in a;
    }
  }

  // ------------------------------------------------------- introductions

  /** `#introduce(stranger, target)`: tells shard `target` about `stranger`. */
  function GatewayIntroduce(uid: string, stranger: string, target: string): Rpc {
    Rpc(target, NEIGHBOR, map[ShardId := target, NeighborId := stranger, GatewayId := uid], "")
  }

  /**
   * The introduction goes to `target` on NEIGHBOR with SHARDID, NEIGHBORID and
   * GATEWAYID; the shard of this revision has no NEIGHBOR route and refuses
   * the call for want of CLIENTID.
   */
  lemma GatewayIntroduceRefused(uid: string, stranger: string, target: string)
    ensures var r := GatewayIntroduce(uid, stranger, target);
      && r.to == target && r.route == NEIGHBOR
      && r.headers == map[ShardId := target, NeighborId := stranger, GatewayId := uid]
      && ShardValidate(r.headers, target) == Err("Missing: Request ID")
  {
  }

  /** The calls `#welcome(nid)` issues: for each known shard, `nid` to it, then it to `nid`. */
  function GatewayIntroductions(uid: string, nid: string, items: seq<string>): seq<Rpc> {
    if items == [] then []
    else [GatewayIntroduce(uid, nid, items[0]), GatewayIntroduce(uid, items[0], nid)]
         + GatewayIntroductions(uid, nid, items[1..])
  }

  /** Two calls per known shard, in order: the newcomer to it, then it to the newcomer. */
  lemma {:induction false} GatewayIntroductionsPairs(uid: string, nid: string, items: seq<string>)
    ensures |GatewayIntroductions(uid, nid, items)| == 2 * |items|
    ensures forall i :: 0 <= i < |items| ==>
              && GatewayIntroductions(uid, nid, items)[2 * i] == GatewayIntroduce(uid, nid, items[i])
              && GatewayIntroductions(uid, nid, items)[2 * i + 1] == GatewayIntroduce(uid, items[i], nid)
  {
    if items != [] {
      GatewayIntroductionsPairs(uid, nid, items[1..]);
      var rs, rest := GatewayIntroductions(uid, nid, items), GatewayIntroductions(uid, nid, items[1..]);
      forall i | 1 <= i < |items|
        ensures rs[2 * i] == GatewayIntroduce(uid, nid, items[i]) && rs[2 * i + 1] == GatewayIntroduce(uid, items[i], nid)
      {
        assert rs[2 * i] == rest[2 * (i - 1)] && rs[2 * i + 1] == rest[2 * (i - 1) + 1];
      }
    }
  }

  // --------------------------------------------------------------- close

  /** `#close`'s checks on the identifiers of the close notice: the gateway id, then a stored count. */
  function GatewayCloseCheck(ids: Result<ShardRouting>, uid: string, storage: Storage): (r: Result<ShardRouting>)
    ensures ids.Err? ==> r == ids
    ensures ids.Ok? && ids.value.gid != uid ==> r == Err("Mismatch: Gateway ID")
    ensures ids.Ok? && ids.value.gid == uid && CountAt(storage, ShardKey(ids.value.sid)).None? ==>
              r == Err("Unknown: Shard ID")
    ensures r.Ok? <==> ids.Ok? && ids.value.gid == uid && CountAt(storage, ShardKey(ids.value.sid)).Some?
    ensures r.Ok? ==> r == ids
  {
    match ids
    case Err(m) => Err(m)
    case Ok(v) =>
      if v.gid != uid then Err("Mismatch: Gateway ID")
      else if CountAt(storage, ShardKey(v.sid)).None? then Err("Unknown: Shard ID")
      else Ok(v)
  }

  /** The storage after `#close` for shard `sid` and client `rid`. */
  function StorageAfterClose(storage: Storage, sid: string, rid: string, isEmpty: bool): Storage
    requires CountAt(storage, ShardKey(sid)).Some?
  {
    var put := storage[ShardKey(sid) := Count(Max0(storage[ShardKey(sid)].n - 1))];
    if isEmpty then put - {ReqKey(rid)} else put
  }

  /**
   * `#close`'s writes: the shard's count drops by one, floored at 0; the
   * client's entry goes only when ISEMPTY is "1"; no other key changes.
   */
  lemma CloseWrites(storage: Storage, sid: string, rid: string, isEmpty: bool)
    requires CountAt(storage, ShardKey(sid)).Some?
    ensures var s := StorageAfterClose(storage, sid, rid, isEmpty);
      && ShardKey(sid) in s
      && s[ShardKey(sid)] == Count(if storage[ShardKey(sid)].n >= 1 then storage[ShardKey(sid)].n - 1 else 0)
      && (isEmpty ==> ReqKey(rid) !in s)
      && forall k :: k != ShardKey(sid) && (isEmpty ==> k != ReqKey(rid)) ==>
           (k in s <==> k in storage) && (k in s ==> s[k] == storage[k])
  {
  }

  /** `#close` keeps the storage layout and the set of `sid:` keys, so the same listing applies. */
  lemma CloseKeepsLayout(storage: Storage, sid: string, rid: string, isEmpty: bool, listing: seq<string>)
    requires StorageValid(storage) && IsListing(storage, listing)
    requires CountAt(storage, ShardKey(sid)).Some?
    ensures StorageValid(StorageAfterClose(storage, sid, rid, isEmpty))
    ensures IsListing(StorageAfterClose(storage, sid, rid, isEmpty), listing)
  {
    var after := StorageAfterClose(storage, sid, rid, isEmpty);
    CloseWrites(storage, sid, rid, isEmpty);
    forall k
      ensures k in listing <==> k in after && IsShardKey(k)
    {
      if k != ShardKey(sid) && k != ReqKey(rid) {
      }
    }
  }

  /**
   * The `for ... of` loop of `#sort` over the listed map `smap`, visited in
   * the order `listing`: every entry becomes a tuple, and every key without
   * its prefix joins the id set.
   */
  method CollectShards(listing: seq<string>, smap: map<string, int>) returns (tuples: seq<Bucket>, found: seq<string>)
    requires forall k :: k in listing ==> k in smap
    ensures tuples == EntriesOf(listing, smap)
    ensures found == StrippedIds(listing)
  {
    tuples, found := [], [];
    for i := 0 to |listing|
      invariant tuples == EntriesOf(listing[..i], smap)
      invariant found == StrippedIds(listing[..i])
    {
      CollectStep(listing, smap, i);
      tuples := tuples + [Bucket(listing[i], smap[listing[i]])];
      found := AddLast(found, Substring4(listing[i]));
    }
    assert listing[..|listing|] == listing;
  }

  /** One more visited key extends both the tuples and the id set. */
  lemma CollectStep(listing: seq<string>, smap: map<string, int>, i: nat)
    requires forall k :: k in listing ==> k in smap
    requires i < |listing|
    ensures EntriesOf(listing[..i + 1], smap) == EntriesOf(listing[..i], smap) + [Bucket(listing[i], smap[listing[i]])]
    ensures StrippedIds(listing[..i + 1]) == AddLast(StrippedIds(listing[..i]), Substring4(listing[i]))
  {
    assert listing[..i + 1] == listing[..i] + [listing[i]];
    EntriesOfSnoc(listing[..i], listing[i], smap);
    StrippedIdsSnoc(listing, i);
  }

  class Gateway {
    const uid: string
    const limit: int

    var storage: Storage
    var current: Option<string>
    var sids: seq<string>
    var sorted: seq<string>

    ghost predicate Valid()
      reads this
    {
      StorageValid(storage) && NoDup(sids)
    }

    constructor (uid: string, limit: int)
      ensures Valid() && this.uid == uid && this.limit == limit
      ensures storage == map[] && current == None && sids == [] && sorted == []
    {
      this.uid := uid;
      this.limit := limit;
      storage, current, sids, sorted := map[], None, [], [];
    }

    /**
     * `#sort`: walks the listed `sid:` entries, collects their ids into
     * `#sids`, and keeps the keys below the limit, by ascending count, in
     * `#sorted`.
     */
    method Sort(listing: seq<string>) returns (bucket: Option<Bucket>)
      requires Valid() && IsListing(storage, listing)
      modifies this`sids, this`sorted
      ensures Valid()
      ensures sorted == ShardsAvailable(storage, listing, limit)
      ensures sids == StrippedIds(listing)
      ensures bucket == LeastShard(storage, listing, limit)
    {
      var smap := Counts(storage, listing);
      var tuples, found := CollectShards(listing, smap);
      tuples := SortTuples(tuples);
      var list;
      list, bucket := SelectEligible(tuples, limit);
      sids, sorted := found, list;
    }

    /** `#welcome(nid)`: the new shard heads `#sorted`, joins `#sids` and is introduced around. */
    method Welcome(nid: string) returns (intros: seq<Rpc>)
      requires Valid()
      modifies this`sorted, this`sids
      ensures Valid()
      ensures sorted == [nid] + old(sorted) && sids == AddLast(old(sids), nid)
      ensures intros == GatewayIntroductions(uid, nid, old(sids))
    {
      var items := sids;
      sorted := [nid] + sorted;
      sids := AddLast(sids, nid);
      intros := GatewayIntroductions(uid, nid, items);
    }

    /**
     * Lines 81-102 of `fetch`: accepts the candidate `cand` or falls back to
     * `#sort` over `listing` and, failing that, to the minted shard.
     */
    method Pick(cand: Option<string>, minted: string, listing: seq<string>)
      returns (sid: string, count: int, intros: seq<Rpc>)
      requires Valid() && IsListing(storage, listing)
      modifies this`sorted, this`sids
      ensures Valid()
      ensures var d := GatewayDecide(storage, limit, listing, cand, old(sorted), minted);
        sid == d.sid && count == d.count && count >= 1
      ensures var d := GatewayDecide(storage, limit, listing, cand, old(sorted), minted);
        var known := if old(sorted) != [] then StrippedIds(listing) else old(sids);
        && intros == (if d.path == Minted then GatewayIntroductions(uid, minted, known) else [])
        && (d.path == Kept ==> sids == old(sids))
        && (d.path == Rebalanced ==> sids == StrippedIds(listing))
        && (d.path == Minted ==> sids == AddLast(known, minted))
      ensures var d := GatewayDecide(storage, limit, listing, cand, old(sorted), minted);
        && (d.path == Kept ==> sorted == old(sorted))
        && (d.path == Rebalanced ==> sorted == ShardsAvailable(storage, listing, limit))
        && (d.path == Minted ==> sorted == [minted])
    {
      var alive := if cand.Some? then CountAt(storage, ShardKey(cand.value)) else None;
      if alive.Some? && limit >= alive.value + 1 {
        sid, count, intros := cand.value, alive.value + 1, [];
      } else {
        sid, count, intros := Fallback(minted, listing);
      }
    }

    /**
     * Lines 91-102 of `fetch`, once the candidate is refused: `#sort` when
     * `#sorted` is non-empty and its least-loaded shard, else the minted one.
     */
    method Fallback(minted: string, listing: seq<string>) returns (sid: string, count: int, intros: seq<Rpc>)
      requires Valid() && IsListing(storage, listing)
      modifies this`sorted, this`sids
      ensures Valid()
      ensures var pair := if old(sorted) != [] then LeastShard(storage, listing, limit) else None;
        && (pair.Some? ==>
              && sid == Substring4(pair.value.id) && count == pair.value.live + 1 && count >= 1 && intros == []
              && sids == StrippedIds(listing) && sorted == ShardsAvailable(storage, listing, limit))
        && (pair.None? ==>
              var known := if old(sorted) != [] then StrippedIds(listing) else old(sids);
              && sid == minted && count == 1 && intros == GatewayIntroductions(uid, minted, known)
              && sids == AddLast(known, minted) && sorted == [minted])
    {
      var pair: Option<Bucket> := None;
      if |sorted| > 0 {
        pair := Sort(listing);
        LeastShardHead(storage, listing, limit);
      }
      if pair.Some? {
        sid, count, intros := Substring4(pair.value.id), pair.value.live + 1, [];
      } else {
        sid := minted;
        intros := Welcome(minted);
        count := 1;
      }
    }

    /**
     * The routing path of `fetch` for client `rid`; `minted` is what
     * `clusterize` would return and `listing` the order the store lists its
     * `sid:` keys in.
     */
    method Route(rid: string, minted: string, listing: seq<string>) returns (sid: string, intros: seq<Rpc>)
      requires Valid() && IsListing(storage, listing)
      modifies this
      ensures Valid()
      ensures var d := GatewayDecide(old(storage), limit, listing,
                                     GatewayCandidate(old(storage), rid, old(current), old(sorted)), old(sorted), minted);
        && sid == d.sid
        && storage == old(storage)[ReqKey(rid) := Text(sid)][ShardKey(sid) := Count(d.count)]
        && current == (if d.count < limit then Some(sid) else None)
      ensures var d := GatewayDecide(old(storage), limit, listing,
                                     GatewayCandidate(old(storage), rid, old(current), old(sorted)), old(sorted), minted);
        var known := if old(sorted) != [] then StrippedIds(listing) else old(sids);
        && intros == (if d.path == Minted then GatewayIntroductions(uid, minted, known) else [])
        && (d.path == Kept ==> sids == old(sids) && sorted == old(sorted))
        && (d.path == Rebalanced ==> sids == StrippedIds(listing) && sorted == ShardsAvailable(old(storage), listing, limit))
        && (d.path == Minted ==> sids == AddLast(known, minted) && sorted == [minted])
    {
      var cand := GatewayCandidate(storage, rid, current, sorted);
      var count;
      sid, count, intros := Pick(cand, minted, listing);
      Commit(rid, sid, count);
    }

    /** Lines 104-108 of `fetch`: `#current` and the two storage writes for the chosen shard. */
    method Commit(rid: string, sid: string, count: int)
      requires Valid() && count >= 1
      modifies this`current, this`storage
      ensures Valid()
      ensures storage == old(storage)[ReqKey(rid) := Text(sid)][ShardKey(sid) := Count(count)]
      ensures current == (if count < limit then Some(sid) else None)
    {
      current := if count < limit then Some(sid) else None;
      storage := storage[ReqKey(rid) := Text(sid)];
      storage := storage[ShardKey(sid) := Count(count)];
    }

    /**
     * `#close`: a shard reports that client `rid` left. `ids` is what the
     * notice's header check yields (src/gateway.ts:195 reads `rid`, `sid` and
     * `gid` from it). The count is decremented (floored at 0), the client's
     * entry is deleted only when ISEMPTY is "1", and `#sort` runs again.
     */
    method Close(h: Headers, ids: Result<ShardRouting>, listing: seq<string>) returns (r: Result<()>)
      requires Valid() && IsListing(storage, listing)
      modifies this
      ensures Valid()
      ensures r.Err? <==> GatewayCloseCheck(ids, uid, old(storage)).Err?
      ensures r.Err? ==> r.message == GatewayCloseCheck(ids, uid, old(storage)).message && unchanged(this)
      ensures r.Ok? ==>
                storage == StorageAfterClose(old(storage), ids.value.sid, ids.value.rid, Get(h, IsEmpty) == Some("1"))
      ensures r.Ok? ==> sorted == ShardsAvailable(storage, listing, limit) && sids == StrippedIds(listing)
      ensures r.Ok? ==> current == (if sorted == [] then None else Some(Substring4(sorted[0])))
    {
      var v := GatewayCloseCheck(ids, uid, storage);
      if v.Err? {
        return Err(v.message);
      }
      Release(v.value.sid, v.value.rid, Get(h, IsEmpty) == Some("1"), listing);
      Resort(listing);
      r := Ok(());
    }

    /** Lines 203-208 of `#close`, past its checks: the two storage writes. */
    method Release(sid: string, rid: string, isEmpty: bool, listing: seq<string>)
      requires Valid() && IsListing(storage, listing) && CountAt(storage, ShardKey(sid)).Some?
      modifies this`storage
      ensures Valid() && IsListing(storage, listing)
      ensures storage == StorageAfterClose(old(storage), sid, rid, isEmpty)
    {
      CloseKeepsLayout(storage, sid, rid, isEmpty, listing);
      storage := StorageAfterClose(storage, sid, rid, isEmpty);
    }

    /** `#sort`, then `#current` becomes the least-loaded shard below the limit, if any. */
    method Resort(listing: seq<string>)
      requires Valid() && IsListing(storage, listing)
      modifies this`sids, this`sorted, this`current
      ensures Valid()
      ensures sorted == ShardsAvailable(storage, listing, limit) && sids == StrippedIds(listing)
      ensures current == (if sorted == [] then None else Some(Substring4(sorted[0])))
    {
      var bucket := Sort(listing);
      LeastShardHead(storage, listing, limit);
      current := if bucket.Some? then Some(Substring4(bucket.value.id)) else None;
    }

    /**
     * `fetch`: the CLOSE route is answered here (errors as 400); any other
     * request is routed for client `rid` and forwarded with GATEWAYID,
     * CLIENTID and SHARDID set.
     */
    method Fetch(req: Request, rid: string, minted: string, listing: seq<string>, closeIds: Result<ShardRouting>)
      returns (out: Outcome)
      requires Valid() && IsListing(storage, listing)
      modifies this
      ensures Valid()
      ensures req.pathname == CLOSE ==>
                && out.Reply?
                && out.response == (match GatewayCloseCheck(closeIds, uid, old(storage))
                                    case Ok(_) => Response(200, "", Some("OK"), map[])
                                    case Err(m) => Abort(400, Some(m)))
      ensures req.pathname == CLOSE && GatewayCloseCheck(closeIds, uid, old(storage)).Err? ==> unchanged(this)
      ensures req.pathname == CLOSE && GatewayCloseCheck(closeIds, uid, old(storage)).Ok? ==>
                && storage == StorageAfterClose(old(storage), closeIds.value.sid, closeIds.value.rid,
                                                Get(req.headers, IsEmpty) == Some("1"))
                && sorted == ShardsAvailable(storage, listing, limit) && sids == StrippedIds(listing)
                && current == (if sorted == [] then None else Some(Substring4(sorted[0])))
      // the shard chosen, the new store and pointers, and the introductions are those of the routing decision
      ensures req.pathname != CLOSE ==>
                var d := GatewayDecide(old(storage), limit, listing,
                                       GatewayCandidate(old(storage), rid, old(current), old(sorted)), old(sorted), minted);
                && out.Forward? && out.request.to == d.sid
                && storage == old(storage)[ReqKey(rid) := Text(d.sid)][ShardKey(d.sid) := Count(d.count)]
                && current == (if d.count < limit then Some(d.sid) else None)
      ensures req.pathname != CLOSE ==>
                var d := GatewayDecide(old(storage), limit, listing,
                                       GatewayCandidate(old(storage), rid, old(current), old(sorted)), old(sorted), minted);
                var known := if old(sorted) != [] then StrippedIds(listing) else old(sids);
                && out.Forward?
                && out.intros == (if d.path == Minted then GatewayIntroductions(uid, minted, known) else [])
                && (d.path == Kept ==> sids == old(sids) && sorted == old(sorted))
                && (d.path == Rebalanced ==> sids == StrippedIds(listing) && sorted == ShardsAvailable(old(storage), listing, limit))
                && (d.path == Minted ==> sids == AddLast(known, minted) && sorted == [minted])
      ensures req.pathname != CLOSE ==>
                && out.Forward?
                && out.request.route == req.pathname && out.request.body == req.body
                && out.request.headers == req.headers[GatewayId := uid][ClientId := rid][ShardId := out.request.to]
      // the chosen shard accepts the forwarded headers as addressed to itself
      ensures req.pathname != CLOSE ==>
                ShardValidate(out.request.headers, out.request.to) == Ok(ShardRouting(out.request.to, rid, uid))
    {
      if req.pathname == CLOSE {
        var r := Close(req.headers, closeIds, listing);
        out := Reply(if r.Ok? then Response(200, "", Some("OK"), map[]) else Abort(400, Some(r.message)));
      } else {
        out := Handoff(req, rid, minted, listing);
      }
    }

    /**
     * Lines 78-116 of `fetch`: routes client `rid` and forwards the request,
     * with GATEWAYID, CLIENTID and SHARDID set, to the chosen shard.
     */
    method Handoff(req: Request, rid: string, minted: string, listing: seq<string>) returns (out: Outcome)
      requires Valid() && IsListing(storage, listing)
      modifies this
      ensures Valid()
      ensures var d := GatewayDecide(old(storage), limit, listing,
                                     GatewayCandidate(old(storage), rid, old(current), old(sorted)), old(sorted), minted);
        && out.Forward? && out.request.to == d.sid
        && storage == old(storage)[ReqKey(rid) := Text(d.sid)][ShardKey(d.sid) := Count(d.count)]
        && current == (if d.count < limit then Some(d.sid) else None)
      ensures var d := GatewayDecide(old(storage), limit, listing,
                                     GatewayCandidate(old(storage), rid, old(current), old(sorted)), old(sorted), minted);
        var known := if old(sorted) != [] then StrippedIds(listing) else old(sids);
        && out.Forward?
        && out.intros == (if d.path == Minted then GatewayIntroductions(uid, minted, known) else [])
        && (d.path == Kept ==> sids == old(sids) && sorted == old(sorted))
        && (d.path == Rebalanced ==> sids == StrippedIds(listing) && sorted == ShardsAvailable(old(storage), listing, limit))
        && (d.path == Minted ==> sids == AddLast(known, minted) && sorted == [minted])
      ensures out.Forward? && TextAt(storage, ReqKey(rid)) == Some(out.request.to) && CountAt(storage, ShardKey(out.request.to)).Some?
      ensures out.Forward? && out.request.route == req.pathname && out.request.body == req.body
      ensures out.Forward? && out.request.headers == req.headers[GatewayId := uid][ClientId := rid][ShardId := out.request.to]
      // the chosen shard accepts the forwarded headers as addressed to itself
      ensures out.Forward? && ShardValidate(out.request.headers, out.request.to) == Ok(ShardRouting(out.request.to, rid, uid))
    {
      var sid, intros := Route(rid, minted, listing);
      var h := req.headers[GatewayId := uid][ClientId := rid][ShardId := sid];
      out := Forward(Rpc(sid, req.pathname, h, req.body), intros);
    }
  }
}
