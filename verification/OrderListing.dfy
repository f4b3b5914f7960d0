/**
 * Single work orders and their scoped, filtered, paged lists. What an actor may open and what the
 * actor's list shows are decided in different places and have to agree.
 */
module OrderListing {
  import opened Types
  import opened Policy
  import opened Paging
  import opened Listing

  datatype Filter = Filter(page: int, limit: int, status: Option<Status>, priority: Option<Priority>,
                                     asset: Option<Uuid>, assignee: Option<Uuid>)

  function Everything(page: int, limit: int): Filter {
    Filter(page, limit, None, None, None, None)
  }

  /** The condition of the list and count queries. */
  predicate Matches(f: Filter, scoped: bool, actor: Uuid, w: Order) {
    && (f.status == None || Some(w.status) == f.status)
    && (f.priority == None || Some(w.priority) == f.priority)
    && (f.asset == None || Some(w.asset) == f.asset)
    && (f.assignee == None || w.assignee == f.assignee)
    && (!scoped || w.assignee == Some(actor))
  }

  function MatchingIds(db: Db, f: Filter, scoped: bool, actor: Uuid): set<Uuid> {
    set o | o in db.orders && Matches(f, scoped, actor, db.orders[o])
  }

  function Created(orders: map<Uuid, Order>): map<Uuid, Time> {
    map o | o in orders :: orders[o].created
  }

  /** All matching orders, newest first. */
  function Listed(db: Db, f: Filter, scoped: bool, actor: Uuid): (s: seq<Uuid>)
    ensures forall x :: x in s <==> x in MatchingIds(db, f, scoped, actor)
    ensures |s| == |MatchingIds(db, f, scoped, actor)|
  {
    SortedFacts(Created(db.orders), MatchingIds(db, f, scoped, actor));
    Sorted(Created(db.orders), MatchingIds(db, f, scoped, actor))
  }

  function Get(db: Db, actor: Uuid, id: Uuid): Result<Order> {
    if Check(db.users, actor, CanReadOrder) != None then Err(Check(db.users, actor, CanReadOrder).value)
    else if id !in db.orders then Err(OrderNotFound)
    else if !AssignedScope(db.users[actor].role, actor, db.orders[id].assignee) then Err(Forbidden)
    else Ok(db.orders[id])
  }

  /** What the list request of an actor is answered. */
  function PageFor(db: Db, actor: Uuid, f: Filter): Result<Page<Order>> {
    if !ValidPage(f.page, f.limit) then Err(Invalid)
    else if Check(db.users, actor, CanReadOrder) != None then Err(Check(db.users, actor, CanReadOrder).value)
    else if !AssignmentFilterAllowed(db.users[actor].role, actor, f.assignee) then Err(Forbidden)
    else Ok(PageReply(Listed(db, f, db.users[actor].role == Technician, actor), db.orders, f.page, f.limit))
  }

  /** `ListWorkOrders`, with its two 32-bit parameters. */
  function SelectPage(db: Db, f: Filter, scoped: bool, actor: Uuid, limit: int, offset: int): seq<Found<Order>>
    requires 0 <= limit && 0 <= offset
  {
    Rows(Limited(Listed(db, f, scoped, actor), limit, offset), db.orders)
  }

  /** The service's list of work orders. */
  method List(db: Db, actor: Uuid, f: Filter) returns (r: Result<Page<Order>>)
    ensures r == PageFor(db, actor, f)
  {
    if f.page < 1 || f.page > 100000 || f.limit < 1 || f.limit > 100 {
      return Err(Invalid);
    }
    var e := Check(db.users, actor, CanReadOrder);
    if e.Some? {
      return Err(e.value);
    }
    var role := db.users[actor].role;
    if !AssignmentFilterAllowed(role, actor, f.assignee) {
      return Err(Forbidden);
    }
    var n := |MatchingIds(db, f, role == Technician, actor)|;
    OffsetFits(f.page, f.limit);
    var rows := SelectPage(db, f, role == Technician, actor, Int32(f.limit), Int32((f.page - 1) * f.limit));
    var data := [];
    var i := 0;
    while i < |rows|
      invariant 0 <= i <= |rows| && data == rows[..i]
    {
      data := data + [rows[i]];
      i := i + 1;
    }
    assert data == rows;
    return Ok(Page(data, f.page, f.limit, n, (n + f.limit - 1) / f.limit));
  }

  /** All orders that an actor sees, newest first. */
  function Seen(db: Db, actor: Uuid): seq<Uuid>
    requires actor in db.users
  {
    Listed(db, Everything(1, 1), db.users[actor].role == Technician, actor)
  }

  /** All pages of a list request are pages of the same listing. */
  lemma EveryPage(db: Db, actor: Uuid, f: Filter, page: int)
    requires PageFor(db, actor, f).Ok? && ValidPage(page, f.limit)
    ensures PageFor(db, actor, f.(page := page))
         == Ok(PageReply(Listed(db, f, db.users[actor].role == Technician, actor), db.orders, page, f.limit))
  {
    var scoped := db.users[actor].role == Technician;
    assert MatchingIds(db, f.(page := page), scoped, actor) == MatchingIds(db, f, scoped, actor);
  }

  /** The data of the first replies to a list request, put together. */
  function Replies(db: Db, actor: Uuid, f: Filter, n: nat): seq<Found<Order>> {
    if n == 0 then []
    else
      Replies(db, actor, f, n - 1)
      + match PageFor(db, actor, f.(page := n)) case Ok(p) => p.data case Err(_) => []
  }

  lemma {:induction false} RepliesAreData(db: Db, actor: Uuid, f: Filter, n: nat)
    requires PageFor(db, actor, f).Ok? && n <= MAX_PAGE
    ensures Replies(db, actor, f, n)
         == DataOf(Listed(db, f, db.users[actor].role == Technician, actor), db.orders, f.limit, n)
  {
    if n != 0 {
      RepliesAreData(db, actor, f, n - 1);
      EveryPage(db, actor, f, n);
    }
  }

  /**
   * Asking for page after page yields every matching order the actor may see, once, newest first;
   * the reply says how many pages that takes.
   */
  lemma PagesYieldAll(db: Db, actor: Uuid, f: Filter)
    requires PageFor(db, actor, f).Ok? && PageFor(db, actor, f).value.totalPages <= MAX_PAGE
    ensures
      var scoped := db.users[actor].role == Technician;
      var pages := PageFor(db, actor, f).value.totalPages;
      var all := Listed(db, f, scoped, actor);
      && 0 <= pages
      && Replies(db, actor, f, pages) == Rows(all, db.orders)
      && Descends(Created(db.orders), all) && Lists(all, MatchingIds(db, f, scoped, actor))
      && PageFor(db, actor, f).value.total == |MatchingIds(db, f, scoped, actor)|
  {
    var scoped := db.users[actor].role == Technician;
    var all := Listed(db, f, scoped, actor);
    PagesCover(all, f.limit);
    RepliesAreData(db, actor, f, TotalPages(|all|, f.limit));
    DataIsRows(all, db.orders, f.limit, TotalPages(|all|, f.limit));
    SortedFacts(Created(db.orders), MatchingIds(db, f, scoped, actor));
  }

  /** Behind the last page the replies are empty. */
  lemma NothingBehind(db: Db, actor: Uuid, f: Filter)
    requires PageFor(db, actor, f).Ok? && PageFor(db, actor, f).value.totalPages < f.page
    ensures PageFor(db, actor, f).value.data == []
  {
    PageFills(Listed(db, f, db.users[actor].role == Technician, actor), f.page, f.limit);
  }

  lemma SeenPage(db: Db, actor: Uuid, page: int, limit: int)
    requires HasPermission(db.users, actor, CanReadOrder) && ValidPage(page, limit)
    ensures PageFor(db, actor, Everything(page, limit)) == Ok(PageReply(Seen(db, actor), db.orders, page, limit))
  {
    var scoped := db.users[actor].role == Technician;
    assert MatchingIds(db, Everything(page, limit), scoped, actor) == MatchingIds(db, Everything(1, 1), scoped, actor);
  }

  /** What is listed can be opened, on every page of every length, and is the same row. */
  lemma ListedOpens(db: Db, actor: Uuid, f: Filter, id: Uuid, row: Order)
    requires Shows(PageFor(db, actor, f), id, row)
    ensures Get(db, actor, id) == Ok(row)
  {
    ShownRows(Listed(db, f, db.users[actor].role == Technician, actor), db.orders, f.page, f.limit);
  }

  /** What can be opened is listed: the scope test on one row is the condition of the list query. */
  lemma OpensListed(db: Db, actor: Uuid, id: Uuid, limit: int) returns (page: int)
    requires Get(db, actor, id).Ok?
    requires ValidPage(1, limit) && TotalPages(|Seen(db, actor)|, limit) <= MAX_PAGE
    ensures Shows(PageFor(db, actor, Everything(page, limit)), id, db.orders[id])
  {
    assert id in Seen(db, actor);
    ListedSomewhere(Seen(db, actor), db.orders, limit, id);
    page :| ValidPage(page, limit)
            && Found(id, db.orders[id]) in PageReply(Seen(db, actor), db.orders, page, limit).data;
    SeenPage(db, actor, page, limit);
  }

  /** An actor can open an order exactly when it is on some page of the actor's unfiltered list. */
  lemma OpensWhenListed(db: Db, actor: Uuid, id: Uuid, limit: int)
    requires ValidPage(1, limit)
    requires actor in db.users ==> TotalPages(|Seen(db, actor)|, limit) <= MAX_PAGE
    ensures Get(db, actor, id).Ok? <==>
            exists page, row :: Shows(PageFor(db, actor, Everything(page, limit)), id, row)
  {
    if Get(db, actor, id).Ok? {
      var page := OpensListed(db, actor, id, limit);
    }
    forall page, row | Shows(PageFor(db, actor, Everything(page, limit)), id, row)
      ensures Get(db, actor, id).Ok?
    {
      ListedOpens(db, actor, Everything(page, limit), id, row);
    }
  }

  // ---- What a list request shows, row by row

  /** The filters of a request, on one row. */
  predicate Passes(f: Filter, w: Order) {
    && (f.status.Some? ==> w.status == f.status.value)
    && (f.priority.Some? ==> w.priority == f.priority.value)
    && (f.asset.Some? ==> w.asset == f.asset.value)
    && (f.assignee.Some? ==> w.assignee == Some(f.assignee.value))
  }

  /** When a request is refused: its numbers first, then the actor, then a filter on somebody else's orders. */
  lemma ListRefused(db: Db, actor: Uuid, f: Filter)
    ensures
      var r := PageFor(db, actor, f);
      if f.page < 1 || f.page > 100000 || f.limit < 1 || f.limit > 100 then r == Err(Invalid)
      else if actor !in db.users || !db.users[actor].active then r == Err(Inactive)
      else if db.users[actor].role == Technician && f.assignee.Some? && f.assignee.value != actor then
        r == Err(Forbidden)
      else r.Ok? && r.value.page == f.page && r.value.limit == f.limit && |r.value.data| <= f.limit
  {
  }

  lemma GetRefused(db: Db, actor: Uuid, id: Uuid)
    ensures Get(db, actor, id) ==
            if actor !in db.users || !db.users[actor].active then Err(Inactive)
            else if id !in db.orders then Err(OrderNotFound)
            else if db.users[actor].role == Technician && db.orders[id].assignee != Some(actor) then Err(Forbidden)
            else Ok(db.orders[id])
  {
  }

  /** Newest first, and the greater id first among rows of one moment. */
  lemma NewestComesFirst(db: Db, actor: Uuid, f: Filter)
    requires PageFor(db, actor, f).Ok?
    ensures
      var data := PageFor(db, actor, f).value.data;
      forall i, j :: 0 <= i < j < |data| ==>
        || data[j].row.created < data[i].row.created
        || (data[j].row.created == data[i].row.created && data[j].id < data[i].id)
  {
    var scoped := db.users[actor].role == Technician;
    SortedFacts(Created(db.orders), MatchingIds(db, f, scoped, actor));
    var from := PageIsPart(Listed(db, f, scoped, actor), f.page, f.limit);
  }

  /**
   * Over all pages a request shows exactly the rows that its actor can open and that pass its filters;
   * a filter on another technician's orders shows nothing.
   */
  lemma ShowsWhatPasses(db: Db, actor: Uuid, f: Filter, id: Uuid, row: Order)
    requires ValidPage(1, f.limit)
    requires actor in db.users ==>
               TotalPages(|MatchingIds(db, f, db.users[actor].role == Technician, actor)|, f.limit) <= MAX_PAGE
    ensures (exists page :: Shows(PageFor(db, actor, f.(page := page)), id, row)) <==>
            Get(db, actor, id) == Ok(row) && Passes(f, row)
  {
    forall page | Shows(PageFor(db, actor, f.(page := page)), id, row)
      ensures Get(db, actor, id) == Ok(row) && Passes(f, row)
    {
      var scoped := db.users[actor].role == Technician;
      ShownRows(Listed(db, f.(page := page), scoped, actor), db.orders, page, f.limit);
    }
    if Get(db, actor, id) == Ok(row) && Passes(f, row) {
      var page := PassingIsShown(db, actor, f, id);
    }
  }

  lemma SamePage(db: Db, actor: Uuid, f: Filter, page: int)
    requires HasPermission(db.users, actor, CanReadOrder) && ValidPage(page, f.limit)
    requires AssignmentFilterAllowed(db.users[actor].role, actor, f.assignee)
    ensures PageFor(db, actor, f.(page := page))
         == Ok(PageReply(Listed(db, f, db.users[actor].role == Technician, actor), db.orders, page, f.limit))
  {
    var scoped := db.users[actor].role == Technician;
    assert MatchingIds(db, f.(page := page), scoped, actor) == MatchingIds(db, f, scoped, actor);
  }

  lemma PassingIsShown(db: Db, actor: Uuid, f: Filter, id: Uuid) returns (page: int)
    requires Get(db, actor, id).Ok? && Passes(f, db.orders[id]) && ValidPage(1, f.limit)
    requires TotalPages(|MatchingIds(db, f, db.users[actor].role == Technician, actor)|, f.limit) <= MAX_PAGE
    ensures Shows(PageFor(db, actor, f.(page := page)), id, db.orders[id])
  {
    var ids := Listed(db, f, db.users[actor].role == Technician, actor);
    assert id in ids;
    ListedSomewhere(ids, db.orders, f.limit, id);
    page :| ValidPage(page, f.limit) && Found(id, db.orders[id]) in PageReply(ids, db.orders, page, f.limit).data;
    SamePage(db, actor, f, page);
  }
}
