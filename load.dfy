/**
 * Least-loaded selection, shared by Group.#sort and Gateway.#sort: the live
 * counts are sorted ascending (the library's stable `Array.prototype.sort`
 * with comparator `a[1] - b[1]`), then a loop keeps the entries still under
 * the limit and remembers the first of them.
 */
module Load {
  import opened Wire

  /** A `BucketTuple`: an actor id (or storage key) with its live count. */
  datatype Bucket = Bucket(id: string, live: int)

  predicate Ascending(ts: seq<Bucket>) {
    forall i, j :: 0 <= i < j < |ts| ==> ts[i].live <= ts[j].live
  }

  predicate NoDupIds(ts: seq<Bucket>) {
    forall i, j :: 0 <= i < j < |ts| ==> ts[i].id != ts[j].id
  }

  function Ids(ts: seq<Bucket>): (r: seq<string>)
    ensures |r| == |ts| && forall i :: 0 <= i < |ts| ==> r[i] == ts[i].id
  {
    seq(|ts|, i requires 0 <= i < |ts| => ts[i].id)
  }

  function Head(ts: seq<Bucket>): Option<Bucket> {
    if ts == [] then None else Some(ts[0])
  }

  // ---------------------------------------------------------- sorting

  /** Places `b` before the first entry whose count is not smaller. */
  function Insert(b: Bucket, ts: seq<Bucket>): seq<Bucket> {
    if ts == [] || b.live <= ts[0].live then [b] + ts else [ts[0]] + Insert(b, ts[1..])
  }

  /** A stable sort by ascending live count. */
  function SortByLoad(ts: seq<Bucket>): seq<Bucket> {
    if ts == [] then [] else Insert(ts[0], SortByLoad(ts[1..]))
  }

  /**
   * `if (tuples.length > 1) tuples.sort(...)`: skipping the sort for fewer
   * than two entries gives the same list.
   */
  method SortTuples(ts: seq<Bucket>) returns (r: seq<Bucket>)
    ensures r == SortByLoad(ts)
  {
    if |ts| > 1 {
      r := SortByLoad(ts);
    } else {
      r := ts;
      assert SortByLoad(ts) == ts;
    }
  }

  lemma {:induction false} InsertPermutes(b: Bucket, ts: seq<Bucket>)
    ensures multiset(Insert(b, ts)) == multiset{b} + multiset(ts)
  {
    if ts != [] && b.live > ts[0].live {
      InsertPermutes(b, ts[1..]);
      assert ts == [ts[0]] + ts[1..];
    }
  }

  lemma {:induction false} InsertAscending(b: Bucket, ts: seq<Bucket>)
    requires Ascending(ts)
    ensures Ascending(Insert(b, ts))
  {
    if ts != [] && b.live > ts[0].live {
      InsertAscending(b, ts[1..]);
      InsertPermutes(b, ts[1..]);
      var rest := Insert(b, ts[1..]);
      forall x | x in rest
        ensures ts[0].live <= x.live
      {
        assert x in multiset(rest);
        assert x == b || x in multiset(ts[1..]);
      }
      AscendingCons(ts[0], rest);
    }
  }

  /** An entry no more loaded than any of an ascending list can head it. */
  lemma AscendingCons(h: Bucket, rest: seq<Bucket>)
    requires Ascending(rest)
    requires forall x :: x in rest ==> h.live <= x.live
    ensures Ascending([h] + rest)
  {
    var l := [h] + rest;
    forall i, j | 0 <= i < j < |l|
      ensures l[i].live <= l[j].live
    {
      assert l[j] == rest[j - 1];
      if i > 0 {
        assert l[i] == rest[i - 1];
      } else {
        assert rest[j - 1] in rest;
      }
    }
  }

  /** An entry whose id none of a list carries can head it. */
  lemma NoDupIdsCons(h: Bucket, rest: seq<Bucket>)
    requires NoDupIds(rest)
    requires forall j :: 0 <= j < |rest| ==> rest[j].id != h.id
    ensures NoDupIds([h] + rest)
  {
    var l := [h] + rest;
    forall i, j | 0 <= i < j < |l|
      ensures l[i].id != l[j].id
    {
      assert l[j] == rest[j - 1];
      if i > 0 {
        assert l[i] == rest[i - 1];
      }
    }
  }

  /** The sort yields ascending counts. */
  lemma {:induction false} SortByLoadAscending(ts: seq<Bucket>)
    ensures Ascending(SortByLoad(ts))
  {
    if ts != [] {
      SortByLoadAscending(ts[1..]);
      InsertAscending(ts[0], SortByLoad(ts[1..]));
    }
  }

  /** The sort is a permutation of its input. */
  lemma {:induction false} SortByLoadPermutes(ts: seq<Bucket>)
    ensures multiset(SortByLoad(ts)) == multiset(ts)
  {
    if ts != [] {
      SortByLoadPermutes(ts[1..]);
      InsertPermutes(ts[0], SortByLoad(ts[1..]));
      assert ts == [ts[0]] + ts[1..];
    }
  }

  lemma {:induction false} InsertNoDupIds(b: Bucket, ts: seq<Bucket>)
    requires NoDupIds(ts)
    requires forall x :: x in ts ==> x.id != b.id
    ensures NoDupIds(Insert(b, ts))
  {
    if ts != [] && b.live > ts[0].live {
      InsertNoDupIds(b, ts[1..]);
      InsertPermutes(b, ts[1..]);
      var rest := Insert(b, ts[1..]);
      forall j | 0 <= j < |rest|
        ensures rest[j].id != ts[0].id
      {
        assert rest[j] in multiset(rest);
      }
      NoDupIdsCons(ts[0], rest);
    }
  }

  /** Sorting keeps distinct ids distinct. */
  lemma {:induction false} SortByLoadNoDupIds(ts: seq<Bucket>)
    requires NoDupIds(ts)
    ensures NoDupIds(SortByLoad(ts))
  {
    if ts != [] {
      SortByLoadNoDupIds(ts[1..]);
      SortByLoadPermutes(ts[1..]);
      forall x | x in SortByLoad(ts[1..])
        ensures x.id != ts[0].id
      {
        assert x in multiset(ts[1..]);
      }
      InsertNoDupIds(ts[0], SortByLoad(ts[1..]));
    }
  }

  // -------------------------------------------------------- filtering

  /** The entries whose count is below `limit`, in their original order. */
  function Eligible(ts: seq<Bucket>, limit: int): seq<Bucket> {
    if ts == [] then []
    else Eligible(ts[..|ts| - 1], limit) + (if ts[|ts| - 1].live < limit then [ts[|ts| - 1]] else [])
  }

  lemma {:induction false} EligibleMembers(ts: seq<Bucket>, limit: int)
    ensures forall b :: b in Eligible(ts, limit) <==> b in ts && b.live < limit
  {
    if ts != [] {
      EligibleMembers(ts[..|ts| - 1], limit);
      assert ts == ts[..|ts| - 1] + [ts[|ts| - 1]];
    }
  }

  lemma {:induction false} EligibleAscending(ts: seq<Bucket>, limit: int)
    requires Ascending(ts)
    ensures Ascending(Eligible(ts, limit))
  {
    if ts != [] {
      var init := ts[..|ts| - 1];
      EligibleAscending(init, limit);
      EligibleMembers(init, limit);
      var e := Eligible(init, limit);
      forall j | 0 <= j < |e|
        ensures e[j].live <= ts[|ts| - 1].live
      {
        assert e[j] in init;
      }
    }
  }

  lemma {:induction false} EligibleNoDupIds(ts: seq<Bucket>, limit: int)
    requires NoDupIds(ts)
    ensures NoDupIds(Eligible(ts, limit))
  {
    if ts != [] {
      var init := ts[..|ts| - 1];
      EligibleNoDupIds(init, limit);
      EligibleMembers(init, limit);
      var e := Eligible(init, limit);
      forall j | 0 <= j < |e|
        ensures e[j].id != ts[|ts| - 1].id
      {
        assert e[j] in init;
      }
    }
  }

  // ------------------------------------------------------ count tables

  /** The live-count table: `order` lists the keys of `kids` once each, in insertion order. */
  ghost predicate TableValid(order: seq<string>, kids: map<string, int>) {
    && NoDup(order)
    && (forall id :: id in kids <==> id in order)
    && (forall id :: id in kids ==> kids[id] >= 0)
  }

  /** `[...kids]`: the table's entries in insertion order. */
  function EntriesOf(order: seq<string>, kids: map<string, int>): (r: seq<Bucket>)
    requires forall id :: id in order ==> id in kids
    ensures |r| == |order| && forall i :: 0 <= i < |order| ==> r[i] == Bucket(order[i], kids[order[i]])
  {
    if order == [] then [] else [Bucket(order[0], kids[order[0]])] + EntriesOf(order[1..], kids)
  }

  /** Appending an id appends its entry. */
  lemma EntriesOfSnoc(order: seq<string>, id: string, kids: map<string, int>)
    requires forall x :: x in order ==> x in kids
    requires id in kids
    ensures EntriesOf(order + [id], kids) == EntriesOf(order, kids) + [Bucket(id, kids[id])]
  {
    var l, r := EntriesOf(order + [id], kids), EntriesOf(order, kids) + [Bucket(id, kids[id])];
    assert |l| == |r|;
    forall i | 0 <= i < |l|
      ensures l[i] == r[i]
    {
      if i < |order| {
        assert (order + [id])[i] == order[i];
      }
    }
  }

  /** The entries list each id of the table once, with its count. */
  lemma EntriesMembers(order: seq<string>, kids: map<string, int>)
    requires TableValid(order, kids)
    ensures NoDupIds(EntriesOf(order, kids))
    ensures forall b: Bucket :: b in EntriesOf(order, kids) <==> b.id in kids && b.live == kids[b.id]
  {
    var es := EntriesOf(order, kids);
    forall b: Bucket | b.id in kids && b.live == kids[b.id]
      ensures b in es
    {
      var i :| 0 <= i < |order| && order[i] == b.id;
      assert es[i] == b;
    }
  }

  /**
   * What `#sort` leaves in `#sorted` and returns: exactly the replicas below
   * the limit, once each, by ascending count; the returned tuple is the first
   * of them and the least loaded.
   */
  lemma EligibleTable(order: seq<string>, kids: map<string, int>, limit: int)
    requires TableValid(order, kids)
    ensures var s := Eligible(SortByLoad(EntriesOf(order, kids)), limit);
      forall id :: id in Ids(s) <==> id in kids && kids[id] < limit
    ensures NoDup(Ids(Eligible(SortByLoad(EntriesOf(order, kids)), limit)))
    ensures var s := Eligible(SortByLoad(EntriesOf(order, kids)), limit);
      forall i :: 0 <= i < |s| ==> s[i].id in kids && s[i].live == kids[s[i].id]
    ensures var s := Eligible(SortByLoad(EntriesOf(order, kids)), limit);
      forall i, j :: 0 <= i < j < |s| ==> s[i].live <= s[j].live
    ensures var s := Eligible(SortByLoad(EntriesOf(order, kids)), limit);
      s != [] ==> forall id :: id in kids && kids[id] < limit ==> s[0].live <= kids[id]
  {
    var es := EntriesOf(order, kids);
    EntriesMembers(order, kids);
    LeastLoaded(es, limit);
    Selection(Eligible(SortByLoad(es), limit), es, kids, limit);
  }

  /** The facts of `EligibleTable` for any selection `s` of the entries `es` below the limit. */
  lemma Selection(s: seq<Bucket>, es: seq<Bucket>, kids: map<string, int>, limit: int)
    requires forall b: Bucket :: b in es <==> b.id in kids && b.live == kids[b.id]
    requires forall b :: b in s <==> b in es && b.live < limit
    requires Ascending(s) && NoDupIds(s)
    requires s != [] ==> forall b :: b in es && b.live < limit ==> s[0].live <= b.live
    ensures forall id :: id in Ids(s) <==> id in kids && kids[id] < limit
    ensures NoDup(Ids(s))
    ensures forall i :: 0 <= i < |s| ==> s[i].id in kids && s[i].live == kids[s[i].id]
    ensures forall i, j :: 0 <= i < j < |s| ==> s[i].live <= s[j].live
    ensures s != [] ==> forall id :: id in kids && kids[id] < limit ==> s[0].live <= kids[id]
  {
    forall i | 0 <= i < |s|
      ensures s[i].id in kids && s[i].live == kids[s[i].id]
    {
      assert s[i] in s;
    }
    forall id | id in kids && kids[id] < limit
      ensures id in Ids(s)
    {
      assert Bucket(id, kids[id]) in es;
      var k :| 0 <= k < |s| && s[k] == Bucket(id, kids[id]);
      assert Ids(s)[k] == id;
    }
    forall id | id in Ids(s)
      ensures id in kids && kids[id] < limit
    {
      var k :| 0 <= k < |s| && Ids(s)[k] == id;
      assert s[k] in s;
    }
    forall id | id in kids && kids[id] < limit && s != []
      ensures s[0].live <= kids[id]
    {
      assert Bucket(id, kids[id]) in es;
    }
  }

  /** `#sorted` after `#sort`: the ids of the table's entries below the limit, least loaded first. */
  function Available(order: seq<string>, kids: map<string, int>, limit: int): seq<string>
    requires forall id :: id in order ==> id in kids
  {
    Ids(Eligible(SortByLoad(EntriesOf(order, kids)), limit))
  }

  /** `#sorted` after `#sort` holds each replica below the limit once, by ascending count. */
  lemma AvailableFacts(order: seq<string>, kids: map<string, int>, limit: int)
    requires TableValid(order, kids)
    ensures forall id :: id in Available(order, kids, limit) <==> id in kids && kids[id] < limit
    ensures NoDup(Available(order, kids, limit))
    ensures var a := Available(order, kids, limit);
      forall i, j :: 0 <= i < j < |a| ==> kids[a[i]] <= kids[a[j]]
    ensures var a := Available(order, kids, limit);
      a != [] ==> forall id :: id in kids && kids[id] < limit ==> kids[a[0]] <= kids[id]
    ensures var a := Available(order, kids, limit);
      Head(Eligible(SortByLoad(EntriesOf(order, kids)), limit)) == if a == [] then None else Some(Bucket(a[0], kids[a[0]]))
  {
    EligibleTable(order, kids, limit);
  }

  // ------------------------------------------------------- decisions

  /** Which of the three routing outcomes `fetch` took. */
  datatype Path = Kept | Rebalanced | Minted

  /** The replica chosen for a request and its count afterwards. */
  datatype Decision = Decision(sid: string, count: int, path: Path)

  // ---------------------------------------------------- the sort loop

  /**
   * The `for` loop of `#sort`: walks the sorted tuples, keeps the ids of those
   * under `limit` and remembers the first kept tuple.
   */
  method SelectEligible(tuples: seq<Bucket>, limit: int) returns (list: seq<string>, bucket: Option<Bucket>)
    ensures list == Ids(Eligible(tuples, limit))
    ensures bucket == Head(Eligible(tuples, limit))
  {
    list, bucket := [], None;
    for i := 0 to |tuples|
      invariant list == Ids(Eligible(tuples[..i], limit))
      invariant bucket == Head(Eligible(tuples[..i], limit))
    {
      assert tuples[..i + 1][..i] == tuples[..i];
      if tuples[i].live < limit {
        if bucket.None? {
          bucket := Some(tuples[i]);
        }
        list := list + [tuples[i].id];
      }
    }
    assert tuples[..|tuples|] == tuples;
  }

  /**
   * What `#sort` computes from the table of distinct ids: exactly the entries
   * under the limit, in ascending count order, ids distinct; its head, when
   * there is one, is no more loaded than any entry under the limit.
   */
  lemma LeastLoaded(ts: seq<Bucket>, limit: int)
    requires NoDupIds(ts)
    ensures var s := Eligible(SortByLoad(ts), limit);
      && (forall b :: b in s <==> b in ts && b.live < limit)
      && Ascending(s)
      && NoDupIds(s)
      && (s != [] ==> forall b :: b in ts && b.live < limit ==> s[0].live <= b.live)
  {
    var sorted := SortByLoad(ts);
    SortByLoadPermutes(ts);
    SortByLoadAscending(ts);
    SortByLoadNoDupIds(ts);
    EligibleMembers(sorted, limit);
    EligibleAscending(sorted, limit);
    EligibleNoDupIds(sorted, limit);
    var s := Eligible(sorted, limit);
    assert forall b :: b in sorted <==> b in multiset(ts);
    forall b | b in s
      ensures s[0].live <= b.live
    {
      var k :| 0 <= k < |s| && s[k] == b;
    }
  }
}
