/**
 * What never goes back: identities and roles are immutable, orders only move up their lifecycle
 * and freeze once terminal, stamps do not decrease, deleted ids do not return, audit rows stay.
 */
module Evolution {
  import opened Types
  import opened Policy
  import opened Statements
  import opened Requests
  import opened Safety
  import O = OrderRequests
  import A = AssetRequests
  import U = UserRequests
  import C = AccountRequests

  function Stage(s: Status): nat {
    match s
    case Open => 0
    case Assigned => 1
    case InProgress => 2
    case Completed => 3
    case Cancelled => 3
  }

  /** Exactly the steps to the next stage, once assigned, and cancellation, out of a status that is not terminal. */
  lemma TransitionExactly(from: Status, to: Status)
    ensures Transition(from, to) == None <==>
            !Terminal(from) && (to == Cancelled || (from != Open && Stage(to) == Stage(from) + 1))
    ensures Transition(from, to) == Some(TerminalOrder) <==> Terminal(from)
  {
  }

  predicate LaterOrder(w: Order, now: Order) {
    && now.number == w.number && now.asset == w.asset && now.createdBy == w.createdBy && now.created == w.created
    && w.updated <= now.updated
    && Stage(w.status) <= Stage(now.status)
    && (w.assignee.Some? ==> now.assignee.Some?)
    && (2 <= Stage(w.status) ==> now.assignee == w.assignee)
    && (Terminal(w.status) ==> now == w)
  }

  predicate LaterUser(u: User, now: User) {
    now.role == u.role && now.created == u.created && u.updated <= now.updated
  }

  predicate LaterAsset(a: Asset, now: Asset) {
    now.code == a.code && now.created == a.created && a.updated <= now.updated
  }

  ghost predicate Evolves(db: Db, db': Db) {
    && (forall u :: u in db.users ==> u in db'.users && LaterUser(db.users[u], db'.users[u]))
    && (forall o :: o in db.orders ==> o in db'.orders && LaterOrder(db.orders[o], db'.orders[o]))
    && (forall a :: a in db.assets ==> a in db'.gone || (a in db'.assets && LaterAsset(db.assets[a], db'.assets[a])))
    && db.gone <= db'.gone
    && db.log <= db'.log
  }

  lemma EvolvesReflexive(a: Db)
    ensures Evolves(a, a)
  {
  }

  lemma EvolvesTransitive(a: Db, b: Db, c: Db)
    requires Evolves(a, b) && Evolves(b, c) && c.gone !! c.assets.Keys
    ensures Evolves(a, c)
  {
  }

  lemma ChangeIsLater(req: O.OrderRequest, db: Db, now: Order)
    requires !req.Create? && req.actor in db.users && O.Verdict(req, db) == None && RowOk(db.orders[req.order])
    requires UpdatedOrder(db.orders[req.order], O.Wanted(req, db.orders[req.order]), now)
    ensures LaterOrder(db.orders[req.order], now)
  {
  }

  lemma ChangedEvolves(req: O.OrderRequest, db: Db, db': Db)
    requires !req.Create? && req.actor in db.users && O.Verdict(req, db) == None && RowOk(db.orders[req.order])
    requires O.Changed(req, db, db')
    ensures Evolves(db, db')
  {
    if O.Actions(req, db.orders[req.order]) != [] {
      ChangeIsLater(req, db, db'.orders[req.order]);
    }
  }

  lemma AddedEvolves(req: O.OrderRequest, start: Time, db: Db, db': Db, id: Uuid, n: nat, year: nat)
    requires req.Create? && O.Added(req, start, db, db', id, n, year)
    ensures Evolves(db, db')
  {
  }

  lemma OrdersEvolve(req: O.OrderRequest, start: Time, db: Db, db': Db)
    requires Sound(db) && req.actor in db.users && O.Verdict(req, db) == None && O.Outcome(req, start, db, db')
    ensures Evolves(db, db')
  {
    if req.Create? {
      var id: Uuid, n: nat, year: nat :| O.Added(req, start, db, db', id, n, year);
      AddedEvolves(req, start, db, db', id, n, year);
    } else {
      ChangedEvolves(req, db, db');
    }
  }

  lemma AssetsEvolve(req: A.AssetRequest, start: Time, db: Db, db': Db)
    requires A.Verdict(req, db) == None && A.Outcome(req, start, db, db')
    ensures Evolves(db, db')
  {
  }

  lemma UsersEvolve(req: U.UserRequest, start: Time, db: Db, db': Db)
    requires U.Verdict(req, db) == None && U.Outcome(req, start, db, db')
    ensures Evolves(db, db')
  {
  }

  lemma UserAddedEvolves(actor: Option<Uuid>, action: Action, row: User, db: Db, db': Db, id: Uuid)
    requires U.Added(actor, action, row, db, db', id)
    ensures Evolves(db, db')
  {
  }

  lemma {:induction false} SeedingEvolves(i: nat, start: Time, hashes: seq<string>, db: Db, db': Db,
                                          admin: Option<Uuid>)
    requires i <= 3 && |hashes| == 3 && db.gone !! db.assets.Keys
    requires C.SeededTo(i, start, hashes, db, db', admin)
    ensures Evolves(db, db') && db'.gone == db.gone && db'.assets == db.assets
  {
    if i != 0 {
      var mid: Db, a: Option<Uuid>, id: Uuid :|
        && C.SeedRound(i, start, hashes, mid, a, db', admin, id)
        && C.SeededTo(i - 1, start, hashes, db, mid, a);
      SeedingEvolves(i - 1, start, hashes, db, mid, a);
      if !C.DemoPresent(mid.users, i - 1) {
        UserAddedEvolves(C.SeedActor(i - 1, a), C.SeedAction(i - 1), C.DemoRow(i - 1, hashes[i - 1], start),
                         mid, db', id);
        EvolvesTransitive(db, mid, db');
      }
    }
  }

  lemma AppliesEvolves(req: Request, start: Time, db: Db, db': Db)
    requires Sound(db) && Applies(req, start, db, db')
    ensures Evolves(db, db')
  {
    match req
    case OfOrder(o) => OrdersEvolve(o, start, db, db');
    case OfAsset(a) => AssetsEvolve(a, start, db, db');
    case OfUser(u) => UsersEvolve(u, start, db, db');
    case OfAccount(c) =>
      if c.SeedDemo? {
        var admin: Option<Uuid> :| C.SeededTo(3, start, c.hashes, db, db', admin);
        SeedingEvolves(3, start, c.hashes, db, db', admin);
      }
  }

  /**
   * An order's fields have the values that the request on it names and keep all others: a patch its
   * texts and priority, an assignment its target, a status request its status.
   */
  lemma ChangesComeFromRequests(req: Request, start: Time, db: Db, db': Db, o: Uuid)
    requires Applies(req, start, db, db') && o in db.orders
    ensures o in db'.orders
    ensures
      var w, now := db.orders[o], db'.orders[o];
      var mine := req.OfOrder? && !req.order.Create? && req.order.order == o;
      var c := if mine && req.order.Patch? then req.order.changes else O.OrderChanges(None, None, None);
      && now.title == Or(c.title, w.title)
      && now.description == Or(c.description, w.description)
      && now.priority == Or(c.priority, w.priority)
      && now.assignee == (if mine && req.order.Assign? then Some(req.order.target) else w.assignee)
      && now.status == (if mine && req.order.Assign? then Assigned
                        else if mine && req.order.Move? then req.order.to
                        else w.status)
  {
    if req.OfAccount? && req.account.SeedDemo? {
      var admin: Option<Uuid> :| C.SeededTo(3, start, req.account.hashes, db, db', admin);
      SeedingKeepsOrders(3, start, req.account.hashes, db, db', admin);
    }
  }

  lemma {:induction false} SeedingKeepsOrders(i: nat, start: Time, hashes: seq<string>, db: Db, db': Db,
                                              admin: Option<Uuid>)
    requires i <= 3 && |hashes| == 3 && C.SeededTo(i, start, hashes, db, db', admin)
    ensures db'.orders == db.orders
  {
    if i != 0 {
      var mid: Db, a: Option<Uuid>, id: Uuid :|
        && C.SeedRound(i, start, hashes, mid, a, db', admin, id)
        && C.SeededTo(i - 1, start, hashes, db, mid, a);
      SeedingKeepsOrders(i - 1, start, hashes, db, mid, a);
    }
  }

  lemma {:induction false} SeedingKeepsUsers(i: nat, start: Time, hashes: seq<string>, db: Db, db': Db,
                                             admin: Option<Uuid>)
    requires i <= 3 && |hashes| == 3 && C.SeededTo(i, start, hashes, db, db', admin)
    ensures forall u :: u in db.users ==> u in db'.users && db'.users[u] == db.users[u]
    ensures db'.assets == db.assets
  {
    if i != 0 {
      var mid: Db, a: Option<Uuid>, id: Uuid :|
        && C.SeedRound(i, start, hashes, mid, a, db', admin, id)
        && C.SeededTo(i - 1, start, hashes, db, mid, a);
      SeedingKeepsUsers(i - 1, start, hashes, db, mid, a);
    }
  }

  /** A user's fields have the values that the request names and keep all others. */
  lemma UserChangesComeFromRequests(req: Request, start: Time, db: Db, db': Db, u: Uuid)
    requires Applies(req, start, db, db') && u in db.users
    ensures u in db'.users
    ensures
      var was, now := db.users[u], db'.users[u];
      var mine := req.OfUser? && req.user.Patch? && req.user.user == u;
      && now.name == (if mine then Or(req.user.changes.name, was.name) else was.name)
      && now.email == (if mine then Or(req.user.changes.email, was.email) else was.email)
      && now.hash == (if mine then Or(req.user.changes.hash, was.hash) else was.hash)
      && now.active == (if mine then Or(req.user.changes.active, was.active) else was.active)
  {
    if req.OfAccount? && req.account.SeedDemo? {
      var admin: Option<Uuid> :| C.SeededTo(3, start, req.account.hashes, db, db', admin);
      SeedingKeepsUsers(3, start, req.account.hashes, db, db', admin);
    }
  }

  /** An asset's fields have the values that the request names and keep all others; only a deletion removes it. */
  lemma AssetChangesComeFromRequests(req: Request, start: Time, db: Db, db': Db, a: Uuid)
    requires Applies(req, start, db, db') && a in db.assets
    ensures a !in db'.assets <==> req.OfAsset? && req.asset.Delete? && req.asset.asset == a
    ensures a in db'.assets ==>
      var was, now := db.assets[a], db'.assets[a];
      var mine := req.OfAsset? && req.asset.Patch? && req.asset.asset == a;
      && now.name == (if mine then Or(req.asset.changes.name, was.name) else was.name)
      && now.category == (if mine then Or(req.asset.changes.category, was.category) else was.category)
      && now.location == (if mine then Or(req.asset.changes.location, was.location) else was.location)
      && now.status == (if mine then Or(req.asset.changes.status, was.status) else was.status)
  {
    if req.OfAccount? && req.account.SeedDemo? {
      var admin: Option<Uuid> :| C.SeededTo(3, start, req.account.hashes, db, db', admin);
      SeedingKeepsUsers(3, start, req.account.hashes, db, db', admin);
    }
  }
}
