/**
 * Newest-first listings and their pages: `ORDER BY created_at DESC, id DESC LIMIT n OFFSET k`, and
 * the page arithmetic around it.
 */
module Paging {
  import opened Types

  const MAX_PAGE := 100000
  const MAX_LIMIT := 100
  const INT32_RANGE := 0x1_0000_0000
  const INT32_HALF := 0x8000_0000

  // ---- The order of a listing

  predicate Before(created: map<Uuid, Time>, a: Uuid, b: Uuid)
    requires a in created && b in created
  {
    created[b] < created[a] || (created[a] == created[b] && b < a)
  }

  predicate Leads(created: map<Uuid, Time>, n: Uuid, ids: set<Uuid>)
    requires n in created && ids <= created.Keys
  {
    forall m :: m in ids && m != n ==> Before(created, n, m)
  }

  lemma {:induction false} NewestExists(created: map<Uuid, Time>, ids: set<Uuid>)
    requires ids != {} && ids <= created.Keys
    ensures exists n :: n in ids && Leads(created, n, ids)
  {
    var x :| x in ids;
    var rest := ids - {x};
    assert forall m :: m in ids ==> m == x || m in rest;
    if rest == {} {
      assert Leads(created, x, ids);
    } else {
      NewestExists(created, rest);
      var n :| n in rest && Leads(created, n, rest);
      if Before(created, x, n) { assert Leads(created, x, ids); } else { assert Leads(created, n, ids); }
    }
  }

  function Newest(created: map<Uuid, Time>, ids: set<Uuid>): (n: Uuid)
    requires ids != {} && ids <= created.Keys
    ensures n in ids && Leads(created, n, ids)
  {
    NewestExists(created, ids);
    var n :| n in ids && Leads(created, n, ids);
    n
  }

  /** The rows with the given ids, newest first. */
  function Sorted(created: map<Uuid, Time>, ids: set<Uuid>): seq<Uuid>
    requires ids <= created.Keys
  {
    if ids == {} then []
    else
      var n := Newest(created, ids);
      [n] + Sorted(created, ids - {n})
  }

  ghost predicate Lists(s: seq<Uuid>, ids: set<Uuid>) {
    forall x :: x in s <==> x in ids
  }

  ghost predicate Descends(created: map<Uuid, Time>, s: seq<Uuid>)
    requires forall x :: x in s ==> x in created
  {
    forall i, j :: 0 <= i < j < |s| ==> Before(created, s[i], s[j])
  }

  /** The newest row goes in front of the listing of the others. */
  lemma NewestFirst(created: map<Uuid, Time>, n: Uuid, rest: seq<Uuid>, ids: set<Uuid>)
    requires n in ids && ids <= created.Keys && Leads(created, n, ids)
    requires Lists(rest, ids - {n}) && Descends(created, rest)
    ensures Lists([n] + rest, ids) && Descends(created, [n] + rest)
  {
    var s := [n] + rest;
    forall x ensures x in s <==> x in ids {
      assert x in s <==> x == n || x in rest;
    }
    forall i, j | 0 <= i < j < |s| ensures Before(created, s[i], s[j]) {
      assert s[j] == rest[j - 1] && rest[j - 1] in rest;
    }
  }

  lemma {:induction false} SortedFacts(created: map<Uuid, Time>, ids: set<Uuid>)
    requires ids <= created.Keys
    ensures Lists(Sorted(created, ids), ids) && Descends(created, Sorted(created, ids))
    ensures |Sorted(created, ids)| == |ids|
  {
    if ids != {} {
      var n := Newest(created, ids);
      SortedFacts(created, ids - {n});
      NewestFirst(created, n, Sorted(created, ids - {n}), ids);
    }
  }

  /** There is only one newest-first listing of given rows. */
  lemma {:induction false} OneListing(created: map<Uuid, Time>, ids: set<Uuid>, s: seq<Uuid>)
    requires ids <= created.Keys && Lists(s, ids) && Descends(created, s)
    ensures s == Sorted(created, ids)
  {
    if s == [] {
      assert forall x :: x in ids ==> x in s;
    } else {
      assert s[0] in ids;
      var n := Newest(created, ids);
      assert n in s;
      assert s[0] == n;
      var rest := s[1..];
      assert forall x :: x in s ==> x == s[0] || x in rest;
      assert s[0] !in rest;
      OneListing(created, ids - {n}, rest);
    }
  }

  // ---- Pages

  predicate ValidPage(page: int, limit: int) {
    1 <= page <= MAX_PAGE && 1 <= limit <= MAX_LIMIT
  }

  /** Go's conversion to a 32-bit integer. */
  function Int32(n: int): int {
    (n + INT32_HALF) % INT32_RANGE - INT32_HALF
  }

  function Smaller(a: int, b: int): int {
    if a < b then a else b
  }

  /** `LIMIT limit OFFSET offset` of a listing; negative values are an error of the query. */
  function Limited<T>(all: seq<T>, limit: int, offset: int): (r: seq<T>)
    requires 0 <= limit && 0 <= offset
    ensures |r| <= limit && forall x :: x in r ==> x in all
  {
    all[Smaller(offset, |all|)..Smaller(offset + limit, |all|)]
  }

  function TotalPages(total: nat, limit: int): int
    requires 1 <= limit
  {
    (total + limit - 1) / limit
  }

  function PageOf<T>(all: seq<T>, page: int, limit: int): seq<T>
    requires 1 <= page && 1 <= limit
  {
    var from := (page - 1) * limit;
    assert 0 <= from;
    Limited(all, limit, from)
  }

  /** The offset of a page that the services accept fits the query's 32-bit parameter. */
  lemma OffsetFits(page: int, limit: int)
    requires ValidPage(page, limit)
    ensures 0 <= (page - 1) * limit <= 9_999_900
    ensures Int32((page - 1) * limit) == (page - 1) * limit && Int32(limit) == limit
  {
    assert (page - 1) * limit <= (MAX_PAGE - 1) * limit <= (MAX_PAGE - 1) * MAX_LIMIT;
  }

  function FirstPages<T>(all: seq<T>, limit: int, n: nat): seq<T>
    requires 1 <= limit
  {
    if n == 0 then [] else FirstPages(all, limit, n - 1) + PageOf(all, n, limit)
  }

  lemma {:induction false} FirstPagesTake<T>(all: seq<T>, limit: int, n: nat)
    requires 1 <= limit
    ensures 0 <= n * limit
    ensures FirstPages(all, limit, n) == all[..Smaller(n * limit, |all|)]
  {
    if n != 0 {
      FirstPagesTake(all, limit, n - 1);
      assert n * limit == (n - 1) * limit + limit;
    }
  }

  lemma LastPage(total: nat, limit: int)
    requires 1 <= limit
    ensures 0 <= TotalPages(total, limit) && total <= TotalPages(total, limit) * limit < total + limit
  {
    var q := TotalPages(total, limit);
    assert q * limit + (total + limit - 1) % limit == total + limit - 1;
  }

  lemma PageBounds(page: int, limit: int, total: nat)
    requires 1 <= page && 1 <= limit
    ensures 0 <= (page - 1) * limit
    ensures page < TotalPages(total, limit) ==> (page - 1) * limit + limit <= total
    ensures page == TotalPages(total, limit) ==> (page - 1) * limit < total
    ensures page > TotalPages(total, limit) ==> total <= (page - 1) * limit
  {
    var q := TotalPages(total, limit);
    LastPage(total, limit);
    LimitTimes(page, q, limit);
    LimitTimes(q, page - 1, limit);
    LimitTimes(page + 1, q, limit);
    LimitTimes(0, page - 1, limit);
    assert page * limit == (page - 1) * limit + limit;
    assert (page + 1) * limit == page * limit + limit;
  }

  lemma LimitTimes(a: int, b: int, limit: int)
    requires 1 <= limit
    ensures a <= b ==> a * limit <= b * limit
  {
    assert a <= b ==> 0 <= (b - a) * limit;
    assert (b - a) * limit == b * limit - a * limit;
  }

  /** A page before the last is full, the last is not empty, and behind it is nothing. */
  lemma PageFills<T>(all: seq<T>, page: int, limit: int)
    requires 1 <= page && 1 <= limit
    ensures page < TotalPages(|all|, limit) ==> |PageOf(all, page, limit)| == limit
    ensures page == TotalPages(|all|, limit) ==> PageOf(all, page, limit) != []
    ensures page > TotalPages(|all|, limit) ==> PageOf(all, page, limit) == []
  {
    PageBounds(page, limit, |all|);
  }

  /** The pages put together are the whole listing, each row once. */
  lemma PagesCover<T>(all: seq<T>, limit: int)
    requires 1 <= limit
    ensures 0 <= TotalPages(|all|, limit)
    ensures FirstPages(all, limit, TotalPages(|all|, limit)) == all
  {
    LastPage(|all|, limit);
    FirstPagesTake(all, limit, TotalPages(|all|, limit));
    assert all[..|all|] == all;
  }

  lemma PageNumber(i: nat, limit: int, total: nat) returns (page: int)
    requires 1 <= limit && i < total
    ensures 1 <= page <= TotalPages(total, limit)
    ensures 0 <= (page - 1) * limit <= i < (page - 1) * limit + limit
  {
    page := i / limit + 1;
    assert (page - 1) * limit + i % limit == i;
    PageBounds(page, limit, total);
  }

  /** A row of the listing is on one of its pages. */
  lemma OnSomePage<T>(all: seq<T>, limit: int, i: nat) returns (page: int)
    requires 1 <= limit && i < |all|
    ensures 1 <= page <= TotalPages(|all|, limit) && all[i] in PageOf(all, page, limit)
  {
    page := PageNumber(i, limit, |all|);
    assert all[i] == PageOf(all, page, limit)[i - (page - 1) * limit];
  }

  /** A page is a stretch of the listing. */
  lemma PageIsPart<T>(all: seq<T>, page: int, limit: int) returns (from: nat)
    requires 1 <= page && 1 <= limit
    ensures
      var shown := PageOf(all, page, limit);
      from + |shown| <= |all| && shown == all[from..from + |shown|]
  {
    from := if PageOf(all, page, limit) == [] then 0 else (page - 1) * limit;
  }
}
