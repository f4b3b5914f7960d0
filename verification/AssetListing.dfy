/**
 * Single assets and their scoped, searched, paged lists: a technician sees the assets of the
 * orders assigned to that technician, in the list as in the detail.
 */
module AssetListing {
  import opened Types
  import opened Policy
  import opened Paging
  import opened Listing
  import S = Search
  import OL = OrderListing

  /** `fold` is the lower-casing of the database's locale. */
  datatype Filter = Filter(page: int, limit: int, status: Option<AssetStatus>, category: string, search: string,
                           fold: string -> string)

  function Everything(page: int, limit: int, fold: string -> string): Filter {
    Filter(page, limit, None, "", "", fold)
  }

  ghost predicate Usual(f: Filter) {
    S.Folds(f.fold)
  }

  /** `AssetVisibleTo`: an order of any status. */
  predicate VisibleTo(orders: map<Uuid, Order>, a: Uuid, u: Uuid) {
    exists o :: o in orders && orders[o].asset == a && orders[o].assignee == Some(u)
  }

  /** The search condition of the list and count queries. */
  predicate MatchesPattern(fold: string -> string, pattern: string, a: Asset)
    requires pattern != "" ==> S.WellFormed(fold(pattern))
  {
    || pattern == ""
    || S.ILike(fold, a.name, pattern)
    || S.ILike(fold, a.code, pattern)
    || S.ILike(fold, a.location, pattern)
  }

  /** The condition of the list and count queries. */
  predicate Matches(f: Filter, orders: map<Uuid, Order>, scoped: bool, actor: Uuid, id: Uuid, a: Asset)
    requires Usual(f)
  {
    assert f.search != "" ==> S.WellFormed(f.fold(S.LiteralPattern(f.search))) by {
      if f.search != "" { S.FoldedWellFormed(f.fold, f.search); }
    }
    && (f.status == None || Some(a.status) == f.status)
    && (f.category == "" || a.category == f.category)
    && MatchesPattern(f.fold, S.LiteralPattern(f.search), a)
    && (!scoped || VisibleTo(orders, id, actor))
  }

  /** A search shows the assets with the term in their name, code or location, letter case aside. */
  lemma SearchShows(f: Filter, orders: map<Uuid, Order>, scoped: bool, actor: Uuid, id: Uuid, a: Asset)
    requires Usual(f) && f.search != ""
    ensures
      var term := f.fold(f.search);
      Matches(f, orders, scoped, actor, id, a) <==>
        && (S.Contains(f.fold(a.name), term) || S.Contains(f.fold(a.code), term)
            || S.Contains(f.fold(a.location), term))
        && Matches(f.(search := ""), orders, scoped, actor, id, a)
  {
    S.SearchFindsTerm(f.fold, a.name, f.search);
    S.SearchFindsTerm(f.fold, a.code, f.search);
    S.SearchFindsTerm(f.fold, a.location, f.search);
  }

  function MatchingIds(db: Db, f: Filter, scoped: bool, actor: Uuid): set<Uuid>
    requires Usual(f)
  {
    set a | a in db.assets && Matches(f, db.orders, scoped, actor, a, db.assets[a])
  }

  function Created(assets: map<Uuid, Asset>): map<Uuid, Time> {
    map a | a in assets :: assets[a].created
  }

  /** All matching assets, newest first. */
  function Listed(db: Db, f: Filter, scoped: bool, actor: Uuid): (s: seq<Uuid>)
    requires Usual(f)
    ensures forall x :: x in s <==> x in MatchingIds(db, f, scoped, actor)
    ensures |s| == |MatchingIds(db, f, scoped, actor)|
  {
    SortedFacts(Created(db.assets), MatchingIds(db, f, scoped, actor));
    Sorted(Created(db.assets), MatchingIds(db, f, scoped, actor))
  }

  function Get(db: Db, actor: Uuid, id: Uuid): Result<Asset> {
    if Check(db.users, actor, CanReadAsset) != None then Err(Check(db.users, actor, CanReadAsset).value)
    else if id !in db.assets then Err(AssetNotFound)
    else if db.users[actor].role == Technician && !VisibleTo(db.orders, id, actor) then Err(Forbidden)
    else Ok(db.assets[id])
  }

  /** What the list request of an actor is answered. */
  function PageFor(db: Db, actor: Uuid, f: Filter): Result<Page<Asset>>
    requires Usual(f)
  {
    if !ValidPage(f.page, f.limit) then Err(Invalid)
    else if Check(db.users, actor, CanReadAsset) != None then Err(Check(db.users, actor, CanReadAsset).value)
    else Ok(PageReply(Listed(db, f, db.users[actor].role == Technician, actor), db.assets, f.page, f.limit))
  }

  /** `ListAssets`, with its two 32-bit parameters. */
  function SelectPage(db: Db, f: Filter, scoped: bool, actor: Uuid, limit: int, offset: int): seq<Found<Asset>>
    requires Usual(f) && 0 <= limit && 0 <= offset
  {
    Rows(Limited(Listed(db, f, scoped, actor), limit, offset), db.assets)
  }

  /** The service's list of assets. */
  method List(db: Db, actor: Uuid, f: Filter) returns (r: Result<Page<Asset>>)
    requires Usual(f)
    ensures r == PageFor(db, actor, f)
  {
    if f.page < 1 || f.page > 100000 || f.limit < 1 || f.limit > 100 {
      return Err(Invalid);
    }
    var e := Check(db.users, actor, CanReadAsset);
    if e.Some? {
      return Err(e.value);
    }
    var scoped := db.users[actor].role == Technician;
    var n := |MatchingIds(db, f, scoped, actor)|;
    OffsetFits(f.page, f.limit);
    var rows := SelectPage(db, f, scoped, actor, Int32(f.limit), Int32((f.page - 1) * f.limit));
    var data := [];
    var i := 0;
    while i < |rows|
      invariant 0 <= i <= |rows| && data == rows[..i]
    {
      data := data + [rows[i]];
      i := i + 1;
    }
    assert data == rows;
    return Ok(Page(data, f.page, f.limit, n, (n + f.limit - 1) / f.limit));
  }

  /** All assets that an actor sees, newest first. */
  function Seen(db: Db, actor: Uuid, fold: string -> string): seq<Uuid>
    requires actor in db.users && S.Folds(fold)
  {
    Listed(db, Everything(1, 1, fold), db.users[actor].role == Technician, actor)
  }

  /** All pages of a list request are pages of the same listing. */
  lemma EveryPage(db: Db, actor: Uuid, f: Filter, page: int)
    requires Usual(f) && PageFor(db, actor, f).Ok? && ValidPage(page, f.limit)
    ensures PageFor(db, actor, f.(page := page))
         == Ok(PageReply(Listed(db, f, db.users[actor].role == Technician, actor), db.assets, page, f.limit))
  {
    var scoped := db.users[actor].role == Technician;
    assert MatchingIds(db, f.(page := page), scoped, actor) == MatchingIds(db, f, scoped, actor);
  }

  /** The data of the first replies to a list request, put together. */
  function Replies(db: Db, actor: Uuid, f: Filter, n: nat): seq<Found<Asset>>
    requires Usual(f)
  {
    if n == 0 then []
    else
      Replies(db, actor, f, n - 1)
      + match PageFor(db, actor, f.(page := n)) case Ok(p) => p.data case Err(_) => []
  }

  lemma {:induction false} RepliesAreData(db: Db, actor: Uuid, f: Filter, n: nat)
    requires Usual(f) && PageFor(db, actor, f).Ok? && n <= MAX_PAGE
    ensures Replies(db, actor, f, n)
         == DataOf(Listed(db, f, db.users[actor].role == Technician, actor), db.assets, f.limit, n)
  {
    if n != 0 {
      RepliesAreData(db, actor, f, n - 1);
      EveryPage(db, actor, f, n);
    }
  }

  /**
   * Asking for page after page yields every matching asset the actor may see, once, newest first;
   * the reply says how many pages that takes.
   */
  lemma PagesYieldAll(db: Db, actor: Uuid, f: Filter)
    requires Usual(f) && PageFor(db, actor, f).Ok? && PageFor(db, actor, f).value.totalPages <= MAX_PAGE
    ensures
      var scoped := db.users[actor].role == Technician;
      var pages := PageFor(db, actor, f).value.totalPages;
      var all := Listed(db, f, scoped, actor);
      && 0 <= pages
      && Replies(db, actor, f, pages) == Rows(all, db.assets)
      && Descends(Created(db.assets), all) && Lists(all, MatchingIds(db, f, scoped, actor))
      && PageFor(db, actor, f).value.total == |MatchingIds(db, f, scoped, actor)|
  {
    var scoped := db.users[actor].role == Technician;
    var all := Listed(db, f, scoped, actor);
    PagesCover(all, f.limit);
    RepliesAreData(db, actor, f, TotalPages(|all|, f.limit));
    DataIsRows(all, db.assets, f.limit, TotalPages(|all|, f.limit));
    SortedFacts(Created(db.assets), MatchingIds(db, f, scoped, actor));
  }

  /** Behind the last page the replies are empty. */
  lemma NothingBehind(db: Db, actor: Uuid, f: Filter)
    requires Usual(f) && PageFor(db, actor, f).Ok? && PageFor(db, actor, f).value.totalPages < f.page
    ensures PageFor(db, actor, f).value.data == []
  {
    PageFills(Listed(db, f, db.users[actor].role == Technician, actor), f.page, f.limit);
  }

  lemma SeenPage(db: Db, actor: Uuid, page: int, limit: int, fold: string -> string)
    requires HasPermission(db.users, actor, CanReadAsset) && ValidPage(page, limit) && S.Folds(fold)
    ensures PageFor(db, actor, Everything(page, limit, fold))
         == Ok(PageReply(Seen(db, actor, fold), db.assets, page, limit))
  {
    var scoped := db.users[actor].role == Technician;
    assert MatchingIds(db, Everything(page, limit, fold), scoped, actor)
        == MatchingIds(db, Everything(1, 1, fold), scoped, actor);
  }

  /** What is listed can be opened, whatever the filter, and is the same row. */
  lemma ListedOpens(db: Db, actor: Uuid, f: Filter, id: Uuid, row: Asset)
    requires Usual(f) && Shows(PageFor(db, actor, f), id, row)
    ensures Get(db, actor, id) == Ok(row)
  {
    ShownRows(Listed(db, f, db.users[actor].role == Technician, actor), db.assets, f.page, f.limit);
  }

  /** What can be opened is listed. */
  lemma OpensListed(db: Db, actor: Uuid, id: Uuid, limit: int, fold: string -> string) returns (page: int)
    requires Get(db, actor, id).Ok? && S.Folds(fold)
    requires ValidPage(1, limit) && TotalPages(|Seen(db, actor, fold)|, limit) <= MAX_PAGE
    ensures Shows(PageFor(db, actor, Everything(page, limit, fold)), id, db.assets[id])
  {
    assert id in Seen(db, actor, fold);
    ListedSomewhere(Seen(db, actor, fold), db.assets, limit, id);
    page :| ValidPage(page, limit)
            && Found(id, db.assets[id]) in PageReply(Seen(db, actor, fold), db.assets, page, limit).data;
    SeenPage(db, actor, page, limit, fold);
  }

  /** An actor can open an asset exactly when it is on some page of the actor's unfiltered list. */
  lemma OpensWhenListed(db: Db, actor: Uuid, id: Uuid, limit: int, fold: string -> string)
    requires ValidPage(1, limit) && S.Folds(fold)
    requires actor in db.users ==> TotalPages(|Seen(db, actor, fold)|, limit) <= MAX_PAGE
    ensures Get(db, actor, id).Ok? <==>
            exists page, row :: Shows(PageFor(db, actor, Everything(page, limit, fold)), id, row)
  {
    if Get(db, actor, id).Ok? {
      var page := OpensListed(db, actor, id, limit, fold);
    }
    forall page, row | Shows(PageFor(db, actor, Everything(page, limit, fold)), id, row)
      ensures Get(db, actor, id).Ok?
    {
      ListedOpens(db, actor, Everything(page, limit, fold), id, row);
    }
  }

  /** An order that an actor can open belongs to an asset that the actor can open. */
  lemma OrderShowsAsset(db: Db, actor: Uuid, o: Uuid)
    requires o in db.orders && db.orders[o].asset in db.assets
    requires HasPermission(db.users, actor, CanReadOrder)
    requires AssignedScope(db.users[actor].role, actor, db.orders[o].assignee)
    ensures Get(db, actor, db.orders[o].asset) == Ok(db.assets[db.orders[o].asset])
  {
  }

  // ---- What a list request shows, row by row

  /** When a request is refused. */
  lemma ListRefused(db: Db, actor: Uuid, f: Filter)
    requires Usual(f)
    ensures
      var r := PageFor(db, actor, f);
      if f.page < 1 || f.page > 100000 || f.limit < 1 || f.limit > 100 then r == Err(Invalid)
      else if actor !in db.users || !db.users[actor].active then r == Err(Inactive)
      else r.Ok? && r.value.page == f.page && r.value.limit == f.limit && |r.value.data| <= f.limit
  {
  }

  /**
   * A technician can open an asset exactly when there is an order on it that the technician can open;
   * for anybody else an asset has only to exist.
   */
  lemma OpensThroughOrders(db: Db, actor: Uuid, a: Uuid)
    ensures Get(db, actor, a) ==
            if actor !in db.users || !db.users[actor].active then Err(Inactive)
            else if a !in db.assets then Err(AssetNotFound)
            else if db.users[actor].role != Technician
                    || exists o :: o in db.orders && db.orders[o].asset == a && OL.Get(db, actor, o).Ok? then
              Ok(db.assets[a])
            else Err(Forbidden)
  {
    if actor in db.users && db.users[actor].active && db.users[actor].role == Technician {
      assert forall o :: o in db.orders ==> (OL.Get(db, actor, o).Ok? <==> db.orders[o].assignee == Some(actor));
    }
  }

  /** Newest first, and the greater id first among rows of one moment. */
  lemma NewestComesFirst(db: Db, actor: Uuid, f: Filter)
    requires Usual(f) && PageFor(db, actor, f).Ok?
    ensures
      var data := PageFor(db, actor, f).value.data;
      forall i, j :: 0 <= i < j < |data| ==>
        || data[j].row.created < data[i].row.created
        || (data[j].row.created == data[i].row.created && data[j].id < data[i].id)
  {
    var scoped := db.users[actor].role == Technician;
    SortedFacts(Created(db.assets), MatchingIds(db, f, scoped, actor));
    var from := PageIsPart(Listed(db, f, scoped, actor), f.page, f.limit);
  }

  /** The filters of a request, on one row. */
  predicate Passes(f: Filter, a: Asset) {
    && (f.status.Some? ==> a.status == f.status.value)
    && (f.category != "" ==> a.category == f.category)
    && (f.search != "" ==>
          var term := f.fold(f.search);
          || S.Contains(f.fold(a.name), term)
          || S.Contains(f.fold(a.code), term)
          || S.Contains(f.fold(a.location), term))
  }

  lemma MatchesWhenPasses(f: Filter, orders: map<Uuid, Order>, scoped: bool, actor: Uuid, id: Uuid, a: Asset)
    requires Usual(f)
    ensures Matches(f, orders, scoped, actor, id, a) <==> Passes(f, a) && (!scoped || VisibleTo(orders, id, actor))
  {
    if f.search != "" {
      SearchShows(f, orders, scoped, actor, id, a);
    }
  }

  /** Over all pages a request shows exactly the rows that its actor can open and that pass its filters. */
  lemma ShowsWhatPasses(db: Db, actor: Uuid, f: Filter, id: Uuid, row: Asset)
    requires Usual(f) && ValidPage(1, f.limit)
    requires actor in db.users ==>
               TotalPages(|MatchingIds(db, f, db.users[actor].role == Technician, actor)|, f.limit) <= MAX_PAGE
    ensures (exists page :: Shows(PageFor(db, actor, f.(page := page)), id, row)) <==>
            Get(db, actor, id) == Ok(row) && Passes(f, row)
  {
    forall page | Shows(PageFor(db, actor, f.(page := page)), id, row)
      ensures Get(db, actor, id) == Ok(row) && Passes(f, row)
    {
      ListedOpens(db, actor, f.(page := page), id, row);
      var scoped := db.users[actor].role == Technician;
      ShownRows(Listed(db, f.(page := page), scoped, actor), db.assets, page, f.limit);
      MatchesWhenPasses(f.(page := page), db.orders, scoped, actor, id, row);
    }
    if Get(db, actor, id) == Ok(row) && Passes(f, row) {
      var page := PassingIsShown(db, actor, f, id);
    }
  }

  lemma SamePage(db: Db, actor: Uuid, f: Filter, page: int)
    requires Usual(f) && HasPermission(db.users, actor, CanReadAsset) && ValidPage(page, f.limit)
    ensures PageFor(db, actor, f.(page := page))
         == Ok(PageReply(Listed(db, f, db.users[actor].role == Technician, actor), db.assets, page, f.limit))
  {
    var scoped := db.users[actor].role == Technician;
    assert MatchingIds(db, f.(page := page), scoped, actor) == MatchingIds(db, f, scoped, actor);
  }

  lemma PassingIsShown(db: Db, actor: Uuid, f: Filter, id: Uuid) returns (page: int)
    requires Usual(f) && Get(db, actor, id).Ok? && Passes(f, db.assets[id]) && ValidPage(1, f.limit)
    requires TotalPages(|MatchingIds(db, f, db.users[actor].role == Technician, actor)|, f.limit) <= MAX_PAGE
    ensures Shows(PageFor(db, actor, f.(page := page)), id, db.assets[id])
  {
    var scoped := db.users[actor].role == Technician;
    var ids := Listed(db, f, scoped, actor);
    MatchesWhenPasses(f, db.orders, scoped, actor, id, db.assets[id]);
    assert id in ids;
    ListedSomewhere(ids, db.assets, f.limit, id);
    page :| ValidPage(page, f.limit) && Found(id, db.assets[id]) in PageReply(ids, db.assets, page, f.limit).data;
    SamePage(db, actor, f, page);
  }
}
