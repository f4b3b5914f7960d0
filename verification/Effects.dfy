/**
 * What every kind of request leaves behind when it goes through, spelled out field by field and
 * row by row: which fields have which of the request's values, what is written to the audit log,
 * and that nothing else changes.
 */
module Effects {
  import opened Types
  import opened Requests
  import Numbers
  import O = OrderRequests
  import A = AssetRequests
  import U = UserRequests
  import C = AccountRequests

  /** An id that no row carries and no deleted asset carried. */
  predicate Unseen(db: Db, id: Uuid) {
    id !in db.users && id !in db.assets && id !in db.orders && id !in db.gone
  }

  // ---- Work orders

  /** A new order has the request's values, is open and unassigned, and is announced once. */
  lemma OrderCreateStores(req: O.OrderRequest, start: Time, db: Db, db': Db) returns (id: Uuid)
    requires Applies(OfOrder(req), start, db, db') && req.Create?
    ensures Unseen(db, id) && id in db'.orders
    ensures
      var w := db'.orders[id];
      && w.asset == req.asset && w.title == req.title && w.description == req.description
      && w.priority == req.priority && w.createdBy == req.actor
      && w.status == Open && w.assignee == None && w.completed == None
      && w.created == start && w.updated == start
      && Numbers.MatchesPattern(w.number)
      && (forall o :: o in db.orders ==> db.orders[o].number != w.number)
      && db' == db.(orders := db.orders[id := w],
                    log := db.log + [Audit(Some(req.actor), OrderCreated, OrderEntity, id,
                                           None, Some(OrderSnapshot(id, w)))])
  {
    var i: Uuid, n: nat, year: nat :| O.Added(req, start, db, db', i, n, year);
    Numbers.NumberReadsBack(year, n);
    id := i;
  }

  /** A patch stores what it supplies and keeps the rest; a patch without effect leaves no trace. */
  lemma OrderPatchStores(req: O.OrderRequest, start: Time, db: Db, db': Db)
    requires Applies(OfOrder(req), start, db, db') && req.Patch?
    ensures req.order in db.orders && req.order in db'.orders
    ensures
      var o, c := req.order, req.changes;
      var was, now := db.orders[o], db'.orders[o];
      && now.title == (if c.title.Some? then c.title.value else was.title)
      && now.description == (if c.description.Some? then c.description.value else was.description)
      && now.priority == (if c.priority.Some? then c.priority.value else was.priority)
      && now.status == was.status && now.assignee == was.assignee && now.number == was.number
      && now.asset == was.asset && now.createdBy == was.createdBy && now.created == was.created
      && if now.title == was.title && now.description == was.description && now.priority == was.priority then
           db' == db
         else
           && was.updated <= now.updated && now.completed == None
           && db' == db.(orders := db.orders[o := now],
                         log := db.log + [Audit(Some(req.actor), OrderUpdated, OrderEntity, o,
                                                Some(OrderSnapshot(o, was)), Some(OrderSnapshot(o, now)))])
  {
    O.ChangeRows(req, db.orders[req.order], db'.orders[req.order]);
  }

  /** An assignment stores its target, whoever had the order before, and moves an open order on. */
  lemma OrderAssignStores(req: O.OrderRequest, start: Time, db: Db, db': Db)
    requires Applies(OfOrder(req), start, db, db') && req.Assign?
    ensures req.order in db.orders && req.order in db'.orders
    ensures
      var o := req.order;
      var was, now := db.orders[o], db'.orders[o];
      var first := Audit(Some(req.actor), OrderAssigned, OrderEntity, o,
                            Some(OrderSnapshot(o, was)), Some(OrderSnapshot(o, now)));
      && now.status == Assigned && now.assignee == Some(req.target)
      && was.assignee != Some(req.target) && now.completed == None
      && now.title == was.title && now.description == was.description && now.priority == was.priority
      && now.number == was.number && now.asset == was.asset && now.createdBy == was.createdBy
      && now.created == was.created && was.updated <= now.updated
      && db' == db.(orders := db.orders[o := now],
                    log := db.log + if was.status == Open then [first, first.(action := OrderStatusChanged)]
                                    else [first])
  {
    O.ChangeRows(req, db.orders[req.order], db'.orders[req.order]);
  }

  /** A status request stores its status, and the time of a completion, and keeps the rest. */
  lemma OrderMoveStores(req: O.OrderRequest, start: Time, db: Db, db': Db)
    requires Applies(OfOrder(req), start, db, db') && req.Move?
    ensures req.order in db.orders && req.order in db'.orders
    ensures
      var o := req.order;
      var was, now := db.orders[o], db'.orders[o];
      && now.status == req.to && now.assignee == was.assignee
      && (now.completed.Some? <==> req.to == Completed)
      && (now.completed.Some? ==> was.updated <= now.completed.value)
      && now.title == was.title && now.description == was.description && now.priority == was.priority
      && now.number == was.number && now.asset == was.asset && now.createdBy == was.createdBy
      && now.created == was.created && was.updated <= now.updated
      && db' == db.(orders := db.orders[o := now],
                    log := db.log + [Audit(Some(req.actor), OrderStatusChanged, OrderEntity, o,
                                           Some(OrderSnapshot(o, was)), Some(OrderSnapshot(o, now)))])
  {
    O.ChangeRows(req, db.orders[req.order], db'.orders[req.order]);
  }

  // ---- Assets

  lemma AssetCreateStores(req: A.AssetRequest, start: Time, db: Db, db': Db) returns (id: Uuid)
    requires Applies(OfAsset(req), start, db, db') && req.Create?
    ensures Unseen(db, id) && id in db'.assets
    ensures
      var a := db'.assets[id];
      && a.code == req.code && a.name == req.name && a.category == req.category
      && a.location == req.location && a.status == req.status
      && a.created == start && a.updated == start
      && db' == db.(assets := db.assets[id := a],
                    log := db.log + [Audit(Some(req.actor), AssetCreated, AssetEntity, id,
                                           None, Some(AssetSnapshot(id, a)))])
  {
    var i: Uuid :| A.Added(req, start, db, db', i);
    id := i;
  }

  lemma AssetPatchStores(req: A.AssetRequest, start: Time, db: Db, db': Db)
    requires Applies(OfAsset(req), start, db, db') && req.Patch?
    ensures req.asset in db.assets && req.asset in db'.assets
    ensures
      var a, c := req.asset, req.changes;
      var was, now := db.assets[a], db'.assets[a];
      && now.name == (if c.name.Some? then c.name.value else was.name)
      && now.category == (if c.category.Some? then c.category.value else was.category)
      && now.location == (if c.location.Some? then c.location.value else was.location)
      && now.status == (if c.status.Some? then c.status.value else was.status)
      && now.code == was.code && now.created == was.created
      && if now.name == was.name && now.category == was.category && now.location == was.location
            && now.status == was.status then
           db' == db
         else
           && was.updated <= now.updated
           && db' == db.(assets := db.assets[a := now],
                         log := db.log + [Audit(Some(req.actor), AssetUpdated, AssetEntity, a,
                                                Some(AssetSnapshot(a, was)), Some(AssetSnapshot(a, now)))])
  {
  }

  lemma AssetDeleteRemoves(req: A.AssetRequest, start: Time, db: Db, db': Db)
    requires Applies(OfAsset(req), start, db, db') && req.Delete?
    ensures req.asset in db.assets
    ensures
      var a := req.asset;
      db' == db.(assets := map x | x in db.assets && x != a :: db.assets[x], gone := db.gone + {a},
                 log := db.log + [Audit(Some(req.actor), AssetDeleted, AssetEntity, a,
                                        Some(AssetSnapshot(a, db.assets[a])), None)])
  {
    assert db.assets - {req.asset} == map x | x in db.assets && x != req.asset :: db.assets[x];
  }

  // ---- Users

  /** One new account and its audit row, which has the public fields and no hash. */
  ghost predicate AddsUser(db: Db, db': Db, id: Uuid, u: User, actor: Option<Uuid>, action: Action) {
    && Unseen(db, id)
    && db' == db.(users := db.users[id := u],
                  log := db.log + [Audit(actor, action, UserEntity, id, None,
                                         Some(UserSnapshot(id, u.name, u.email, u.role, u.active, false)))])
  }

  lemma UserCreateStores(req: U.UserRequest, start: Time, db: Db, db': Db) returns (id: Uuid)
    requires Applies(OfUser(req), start, db, db') && req.Create?
    ensures AddsUser(db, db', id, User(req.name, req.email, req.hash, req.role, true, start, start),
                     Some(req.actor), UserCreated)
  {
    var row := U.NewRow(req.name, req.email, req.hash, req.role, start);
    var i: Uuid :| U.Added(Some(req.actor), UserCreated, row, db, db', i);
    id := i;
  }

  lemma BootstrapStores(req: C.AccountRequest, start: Time, db: Db, db': Db) returns (id: Uuid)
    requires Applies(OfAccount(req), start, db, db') && req.Bootstrap?
    ensures AddsUser(db, db', id, User(req.name, req.email, req.hash, Admin, true, start, start),
                     None, UserBootstrapped)
  {
    var row := U.NewRow(req.name, req.email, req.hash, Admin, start);
    var i: Uuid :| U.Added(None, UserBootstrapped, row, db, db', i);
    id := i;
  }

  /**
   * A user patch stores what it supplies and keeps the rest, the role above all. A new password always
   * counts as a change, and the audit row says that there was one, not what it is.
   */
  lemma UserPatchStores(req: U.UserRequest, start: Time, db: Db, db': Db)
    requires Applies(OfUser(req), start, db, db') && req.Patch?
    ensures req.user in db.users && req.user in db'.users
    ensures
      var u, c := req.user, req.changes;
      var was, now := db.users[u], db'.users[u];
      && now.name == (if c.name.Some? then c.name.value else was.name)
      && now.email == (if c.email.Some? then c.email.value else was.email)
      && now.hash == (if c.hash.Some? then c.hash.value else was.hash)
      && now.active == (if c.active.Some? then c.active.value else was.active)
      && now.role == was.role && now.created == was.created
      && if now.name == was.name && now.email == was.email && now.active == was.active && c.hash == None then
           db' == db
         else
           && was.updated <= now.updated
           && db' == db.(users := db.users[u := now],
                         log := db.log + [Audit(Some(req.actor), UserUpdated, UserEntity, u,
                                                Some(UserSnapshot(u, was.name, was.email, was.role, was.active, false)),
                                                Some(UserSnapshot(u, now.name, now.email, was.role, now.active,
                                                                  c.hash.Some?)))])
  {
  }
}
