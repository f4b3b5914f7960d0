/** Replies of the list requests, over one snapshot. */
module Listing {
  import opened Types
  import opened Policy
  import opened Paging

  datatype Result<+T> = Ok(value: T) | Err(error: Error)

  datatype Found<+T> = Found(id: Uuid, row: T)

  datatype Page<+T> = Page(data: seq<Found<T>>, page: int, limit: int, total: nat, totalPages: int)

  function Rows<T>(ids: seq<Uuid>, table: map<Uuid, T>): seq<Found<T>>
    requires forall x :: x in ids ==> x in table
  {
    seq(|ids|, i requires 0 <= i < |ids| => Found(ids[i], table[ids[i]]))
  }

  predicate Shows<T(==)>(r: Result<Page<T>>, id: Uuid, row: T) {
    r.Ok? && Found(id, row) in r.value.data
  }

  /** The reply of the services once their queries have answered. */
  function PageReply<T>(ids: seq<Uuid>, table: map<Uuid, T>, page: int, limit: int): Page<T>
    requires ValidPage(page, limit) && forall x :: x in ids ==> x in table
  {
    Page(Rows(PageOf(ids, page, limit), table), page, limit, |ids|, TotalPages(|ids|, limit))
  }

  lemma PageShows<T>(ids: seq<Uuid>, table: map<Uuid, T>, page: int, limit: int, id: Uuid)
    requires ValidPage(page, limit) && forall x :: x in ids ==> x in table
    requires id in table
    ensures Found(id, table[id]) in PageReply(ids, table, page, limit).data <==> id in PageOf(ids, page, limit)
  {
    var shown := PageOf(ids, page, limit);
    if id in shown {
      var i :| 0 <= i < |shown| && shown[i] == id;
      assert Rows(shown, table)[i] == Found(id, table[id]);
    }
  }

  lemma ShownRows<T>(ids: seq<Uuid>, table: map<Uuid, T>, page: int, limit: int)
    requires ValidPage(page, limit) && forall x :: x in ids ==> x in table
    ensures forall f :: f in PageReply(ids, table, page, limit).data ==>
              f.id in ids && f.id in table && f.row == table[f.id]
  {
  }

  /** The rows of the first pages, put together. */
  function DataOf<T>(ids: seq<Uuid>, table: map<Uuid, T>, limit: int, n: nat): seq<Found<T>>
    requires ValidPage(1, limit) && n <= MAX_PAGE && forall x :: x in ids ==> x in table
  {
    if n == 0 then [] else DataOf(ids, table, limit, n - 1) + PageReply(ids, table, n, limit).data
  }

  lemma {:induction false} DataIsRows<T>(ids: seq<Uuid>, table: map<Uuid, T>, limit: int, n: nat)
    requires ValidPage(1, limit) && n <= MAX_PAGE && forall x :: x in ids ==> x in table
    ensures FirstPages(ids, limit, n) <= ids
    ensures DataOf(ids, table, limit, n) == Rows(FirstPages(ids, limit, n), table)
  {
    FirstPagesTake(ids, limit, n);
    if n != 0 {
      DataIsRows(ids, table, limit, n - 1);
    }
  }

  /** A row is on one of the first `MAX_PAGE` pages exactly when it is in the listing. */
  lemma ListedSomewhere<T>(ids: seq<Uuid>, table: map<Uuid, T>, limit: int, id: Uuid)
    requires ValidPage(1, limit) && TotalPages(|ids|, limit) <= MAX_PAGE
    requires (forall x :: x in ids ==> x in table) && id in table
    ensures id in ids <==>
            exists page :: ValidPage(page, limit) && Found(id, table[id]) in PageReply(ids, table, page, limit).data
  {
    if id in ids {
      var i :| 0 <= i < |ids| && ids[i] == id;
      var page := OnSomePage(ids, limit, i);
      PageShows(ids, table, page, limit, id);
      assert ValidPage(page, limit);
    }
    forall page | ValidPage(page, limit) && Found(id, table[id]) in PageReply(ids, table, page, limit).data
      ensures id in ids
    {
      ShownRows(ids, table, page, limit);
    }
  }
}
