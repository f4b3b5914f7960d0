/**
 * Who wrote the audit rows and how many there are: every row's author was active and permitted
 * when it was committed, technicians only move their own orders along, an order has one status
 * row per stage it has passed, and there is at most one bootstrap.
 */
module Ledger {
  import opened Types
  import opened Policy
  import opened Statements
  import opened Requests
  import S = Safety
  import O = OrderRequests
  import A = AssetRequests
  import U = UserRequests
  import C = AccountRequests

  // ---- Authors

  function KindOf(action: Action): Kind {
    match action
    case UserBootstrapped => UserEntity
    case UserCreated => UserEntity
    case UserUpdated => UserEntity
    case AssetCreated => AssetEntity
    case AssetUpdated => AssetEntity
    case AssetDeleted => AssetEntity
    case _ => OrderEntity
  }

  /** The permission that the recorded change asks of its author. */
  function NeededFor(row: Audit): Permission {
    match row.action
    case UserBootstrapped => CanCreateUser
    case UserCreated => CanCreateUser
    case UserUpdated => CanUpdateUser
    case AssetCreated => CanCreateAsset
    case AssetUpdated => CanUpdateAsset
    case AssetDeleted => CanDeleteAsset
    case OrderCreated => CanCreateOrder
    case OrderAssigned => CanAssignOrder
    case OrderUpdated => CanUpdateOrder
    case OrderStatusChanged =>
      if !row.after.Some? || !row.after.value.OrderSnapshot? then CanMoveOrder
      else if row.after.value.order.status == Assigned then CanAssignOrder
      else StatusPermission(row.after.value.order.status)
  }

  /** A technician's row: one of the two steps of the technician's own order. */
  predicate OwnStep(actor: Uuid, row: Audit) {
    && row.action == OrderStatusChanged
    && row.before.Some? && row.before.value.OrderSnapshot?
    && row.after.Some? && row.after.value.OrderSnapshot?
    && var w, now := row.before.value.order, row.after.value.order;
    && w.assignee == Some(actor) && now.assignee == Some(actor)
    && ((w.status == Assigned && now.status == InProgress) || (w.status == InProgress && now.status == Completed))
  }

  predicate IsCreation(action: Action) {
    action == UserBootstrapped || action == UserCreated || action == AssetCreated || action == OrderCreated
  }

  /** The row's snapshots are of the entity that the row names. */
  predicate Describes(row: Audit, s: Option<Snapshot>) {
    s.Some? ==> KindOfSnapshot(s.value) == row.kind && s.value.id == row.id
  }

  predicate RowOk(users: map<Uuid, User>, row: Audit) {
    && (row.actor == None <==> row.action == UserBootstrapped)
    && row.kind == KindOf(row.action)
    && (row.before == None <==> IsCreation(row.action))
    && (row.after == None <==> row.action == AssetDeleted)
    && Describes(row, row.before) && Describes(row, row.after)
    && (row.actor.Some? ==>
          && row.actor.value in users
          && (users[row.actor.value].role == Technician ==> OwnStep(row.actor.value, row)))
  }

  ghost predicate RowsOk(db: Db) {
    forall i :: 0 <= i < |db.log| ==> RowOk(db.users, db.log[i])
  }

  predicate Permitted(users: map<Uuid, User>, row: Audit) {
    row.actor.Some? ==> HasPermission(users, row.actor.value, NeededFor(row))
  }

  /** The new rows are in order, and their authors active and permitted as the rows are committed. */
  ghost predicate WellAuthored(db: Db, db': Db) {
    && db.log <= db'.log
    && forall i :: |db.log| <= i < |db'.log| ==> RowOk(db'.users, db'.log[i]) && Permitted(db'.users, db'.log[i])
  }

  lemma ChangeAuthored(req: O.OrderRequest, db: Db, now: Order, action: Action)
    requires !req.Create? && HasPermission(db.users, req.actor, O.PermissionOf(req)) && O.Verdict(req, db) == None
    requires UpdatedOrder(db.orders[req.order], O.Wanted(req, db.orders[req.order]), now)
    requires action in O.Actions(req, db.orders[req.order])
    ensures RowOk(db.users, O.Row(req.actor, req.order, action, db.orders[req.order], now))
    ensures Permitted(db.users, O.Row(req.actor, req.order, action, db.orders[req.order], now))
  {
  }

  lemma OrderAuthored(req: O.OrderRequest, start: Time, db: Db, db': Db)
    requires HasPermission(db.users, req.actor, O.PermissionOf(req))
    requires O.Verdict(req, db) == None && O.Outcome(req, start, db, db')
    ensures WellAuthored(db, db')
  {
    if !req.Create? && O.Actions(req, db.orders[req.order]) != [] {
      var was, now := db.orders[req.order], db'.orders[req.order];
      O.ChangeRows(req, was, now);
      forall action | action in O.Actions(req, was)
        ensures RowOk(db.users, O.Row(req.actor, req.order, action, was, now))
        ensures Permitted(db.users, O.Row(req.actor, req.order, action, was, now))
      {
        ChangeAuthored(req, db, now, action);
      }
    }
  }

  lemma AssetAuthored(req: A.AssetRequest, start: Time, db: Db, db': Db)
    requires HasPermission(db.users, req.actor, A.PermissionOf(req))
    requires A.Verdict(req, db) == None && A.Outcome(req, start, db, db')
    ensures WellAuthored(db, db')
  {
  }

  lemma UserAuthored(req: U.UserRequest, start: Time, db: Db, db': Db)
    requires HasPermission(db.users, req.actor, U.PermissionOf(req))
    requires U.Verdict(req, db) == None && U.Outcome(req, start, db, db')
    ensures WellAuthored(db, db')
  {
  }

  lemma {:induction false} SeedAuthored(i: nat, start: Time, hashes: seq<string>, db: Db, db': Db, admin: Option<Uuid>)
    requires i <= 3 && |hashes| == 3 && C.SeededTo(i, start, hashes, db, db', admin)
    ensures WellAuthored(db, db')
    ensures 0 < i ==> admin.Some? && HasPermission(db'.users, admin.value, CanCreateUser)
  {
    if i != 0 {
      var mid: Db, a: Option<Uuid>, id: Uuid :|
        && C.SeedRound(i, start, hashes, mid, a, db', admin, id)
        && C.SeededTo(i - 1, start, hashes, db, mid, a);
      SeedAuthored(i - 1, start, hashes, db, mid, a);
      AddedAuthored(i, start, hashes, db, mid, a, db', admin, id);
    }
  }

  lemma AddedAuthored(i: nat, start: Time, hashes: seq<string>, db: Db, mid: Db, a: Option<Uuid>,
                      db': Db, admin: Option<Uuid>, id: Uuid)
    requires 1 <= i <= 3 && |hashes| == 3 && C.SeedRound(i, start, hashes, mid, a, db', admin, id)
    requires WellAuthored(db, mid)
    requires 1 < i ==> a.Some? && HasPermission(mid.users, a.value, CanCreateUser)
    ensures WellAuthored(db, db')
    ensures admin.Some? && HasPermission(db'.users, admin.value, CanCreateUser)
  {
    forall j | |db.log| <= j < |db'.log| ensures RowOk(db'.users, db'.log[j]) && Permitted(db'.users, db'.log[j]) {
      if j < |mid.log| { assert db'.log[j] == mid.log[j]; }
    }
  }

  lemma AppliesAuthored(req: Request, start: Time, db: Db, db': Db)
    requires Applies(req, start, db, db')
    ensures WellAuthored(db, db')
  {
    match req
    case OfOrder(o) => OrderAuthored(o, start, db, db');
    case OfAsset(a) => AssetAuthored(a, start, db, db');
    case OfUser(u) => UserAuthored(u, start, db, db');
    case OfAccount(c) =>
      if c.SeedDemo? {
        var admin: Option<Uuid> :| C.SeededTo(3, start, c.hashes, db, db', admin);
        SeedAuthored(3, start, c.hashes, db, db', admin);
      }
  }

  /** Rows stay in order: users are never removed and roles never change. */
  lemma RowsStayOk(req: Request, start: Time, db: Db, db': Db)
    requires RowsOk(db) && Applies(req, start, db, db')
    requires forall u :: u in db.users ==> u in db'.users && db'.users[u].role == db.users[u].role
    ensures RowsOk(db')
  {
    AppliesAuthored(req, start, db, db');
    forall i | 0 <= i < |db'.log| ensures RowOk(db'.users, db'.log[i]) {
      if i < |db.log| { assert db'.log[i] == db.log[i]; }
    }
  }

  // ---- Counting

  predicate IsMove(row: Audit, o: Uuid) {
    row.action == OrderStatusChanged && row.id == o
  }

  function Moves(log: seq<Audit>, o: Uuid): nat
    decreases |log|
  {
    if log == [] then 0
    else Moves(log[..|log| - 1], o) + (if IsMove(log[|log| - 1], o) then 1 else 0)
  }

  function Bootstraps(log: seq<Audit>): nat
    decreases |log|
  {
    if log == [] then 0
    else Bootstraps(log[..|log| - 1]) + (if log[|log| - 1].action == UserBootstrapped then 1 else 0)
  }

  /** The number of status rows of an order at its present stage. */
  predicate Expected(w: Order, n: nat) {
    match w.status
    case Open => n == 0
    case Assigned => n == 1
    case InProgress => n == 2
    case Completed => n == 3
    case Cancelled => if w.assignee == None then n == 1 else n == 2 || n == 3
  }

  predicate CountedOrder(orders: map<Uuid, Order>, o: Uuid, n: nat) {
    if o in orders then Expected(orders[o], n) else n == 0
  }

  ghost predicate Counted(db: Db) {
    && (forall o :: CountedOrder(db.orders, o, Moves(db.log, o)))
    && Bootstraps(db.log) <= 1
    && (Bootstraps(db.log) == 1 ==> HasAdmin(db.users))
  }

  lemma AppendCounts(log: seq<Audit>, row: Audit)
    ensures forall o :: Moves(log + [row], o) == Moves(log, o) + (if IsMove(row, o) then 1 else 0)
    ensures Bootstraps(log + [row]) == Bootstraps(log) + (if row.action == UserBootstrapped then 1 else 0)
  {
    assert (log + [row])[..|log|] == log;
  }

  lemma OrderAddedCounted(req: O.OrderRequest, start: Time, db: Db, db': Db, id: Uuid, n: nat, year: nat)
    requires Counted(db) && req.Create? && O.Added(req, start, db, db', id, n, year)
    ensures Counted(db')
  {
    AppendCounts(db.log, O.Creation(req.actor, id, db'.orders[id]));
    forall o ensures CountedOrder(db'.orders, o, Moves(db'.log, o)) {
      assert CountedOrder(db.orders, o, Moves(db.log, o));
    }
  }

  lemma ChangeExpected(req: O.OrderRequest, db: Db, now: Order, n: nat)
    requires !req.Create? && req.actor in db.users && O.Verdict(req, db) == None
    requires UpdatedOrder(db.orders[req.order], O.Wanted(req, db.orders[req.order]), now)
    requires Expected(db.orders[req.order], n)
    requires db.orders[req.order].status == Open ==> db.orders[req.order].assignee == None
    requires db.orders[req.order].status != Open && db.orders[req.order].status != Cancelled ==>
               db.orders[req.order].assignee.Some?
    ensures Expected(now, if OrderStatusChanged in O.Actions(req, db.orders[req.order]) then n + 1 else n)
  {
  }

  /** What the rows of a change add to the counts. */
  lemma ChangeCounts(req: O.OrderRequest, was: Order, now: Order, log: seq<Audit>)
    requires !req.Create? && O.Actions(req, was) != []
    ensures
      var log' := log + O.Rows(req.actor, req.order, O.Actions(req, was), was, now);
      var k := if OrderStatusChanged in O.Actions(req, was) then 1 else 0;
      && (forall o :: Moves(log', o) == Moves(log, o) + (if o == req.order then k else 0))
      && Bootstraps(log') == Bootstraps(log)
  {
    O.ChangeRows(req, was, now);
    var first := O.Row(req.actor, req.order, O.Actions(req, was)[0], was, now);
    AppendCounts(log, first);
    if req.Assign? && was.status == Open {
      var second := O.Row(req.actor, req.order, OrderStatusChanged, was, now);
      AppendCounts(log + [first], second);
      assert log + [first, second] == log + [first] + [second];
    }
  }

  lemma OrderChangedCounted(req: O.OrderRequest, db: Db, db': Db)
    requires Counted(db) && S.OrdersSound(db)
    requires !req.Create? && req.actor in db.users && O.Verdict(req, db) == None && O.Changed(req, db, db')
    ensures Counted(db')
  {
    var was := db.orders[req.order];
    if O.Actions(req, was) != [] {
      var now := db'.orders[req.order];
      assert CountedOrder(db.orders, req.order, Moves(db.log, req.order));
      assert S.RowOk(was);
      ChangeExpected(req, db, now, Moves(db.log, req.order));
      ChangeCounts(req, was, now, db.log);
      forall o ensures CountedOrder(db'.orders, o, Moves(db'.log, o)) {
        assert CountedOrder(db.orders, o, Moves(db.log, o));
      }
    }
  }

  /** Rows of users and assets, other than a bootstrap, count for nothing. */
  lemma OtherRowCounted(db: Db, db': Db, row: Audit)
    requires Counted(db) && db'.orders == db.orders && db'.log == db.log + [row]
    requires row.action != OrderStatusChanged
    requires row.action == UserBootstrapped ==> Bootstraps(db.log) == 0 && HasAdmin(db'.users)
    requires HasAdmin(db.users) ==> HasAdmin(db'.users)
    ensures Counted(db')
  {
    AppendCounts(db.log, row);
    forall o ensures CountedOrder(db'.orders, o, Moves(db'.log, o)) {
      assert CountedOrder(db.orders, o, Moves(db.log, o));
    }
  }

  lemma AssetCounted(req: A.AssetRequest, start: Time, db: Db, db': Db)
    requires Counted(db) && A.Verdict(req, db) == None && A.Outcome(req, start, db, db')
    ensures Counted(db')
  {
    if db' != db {
      OtherRowCounted(db, db', db'.log[|db.log|]);
    }
  }

  lemma UserAddedCounted(actor: Option<Uuid>, action: Action, row: User, db: Db, db': Db, id: Uuid)
    requires Counted(db) && U.Added(actor, action, row, db, db', id)
    requires action == UserCreated || (action == UserBootstrapped && row.role == Admin && !HasAdmin(db.users))
    ensures Counted(db')
  {
    if HasAdmin(db.users) {
      var a :| a in db.users && db.users[a].role == Admin;
      assert a in db'.users && db'.users[a].role == Admin;
    }
    if row.role == Admin { assert id in db'.users && db'.users[id].role == Admin; }
    OtherRowCounted(db, db', U.Creation(actor, action, id, row));
  }

  lemma UserChangedCounted(req: U.UserRequest, db: Db, db': Db)
    requires Counted(db) && req.Patch? && U.Verdict(req, db) == None && U.Changed(req, db, db')
    ensures Counted(db')
  {
    if db' != db {
      if HasAdmin(db.users) {
        var a :| a in db.users && db.users[a].role == Admin;
        assert a in db'.users && db'.users[a].role == Admin;
      }
      OtherRowCounted(db, db', db'.log[|db.log|]);
    }
  }

  lemma {:induction false} SeededCounted(i: nat, start: Time, hashes: seq<string>, db: Db, db': Db, admin: Option<Uuid>)
    requires i <= 3 && |hashes| == 3 && Counted(db) && C.SeededTo(i, start, hashes, db, db', admin)
    ensures Counted(db')
  {
    if i != 0 {
      var mid: Db, a: Option<Uuid>, id: Uuid :|
        && C.SeedRound(i, start, hashes, mid, a, db', admin, id)
        && C.SeededTo(i - 1, start, hashes, db, mid, a);
      SeededCounted(i - 1, start, hashes, db, mid, a);
      if !C.DemoPresent(mid.users, i - 1) {
        UserAddedCounted(C.SeedActor(i - 1, a), C.SeedAction(i - 1), C.DemoRow(i - 1, hashes[i - 1], start),
                         mid, db', id);
      }
    }
  }

  lemma AppliesCounted(req: Request, start: Time, db: Db, db': Db)
    requires Counted(db) && S.OrdersSound(db) && Applies(req, start, db, db')
    ensures Counted(db')
  {
    match req
    case OfOrder(o) =>
      if o.Create? {
        var id: Uuid, n: nat, year: nat :| O.Added(o, start, db, db', id, n, year);
        OrderAddedCounted(o, start, db, db', id, n, year);
      } else {
        OrderChangedCounted(o, db, db');
      }
    case OfAsset(a) => AssetCounted(a, start, db, db');
    case OfUser(u) =>
      if u.Create? {
        var row := U.NewRow(u.name, u.email, u.hash, u.role, start);
        var id: Uuid :| U.Added(Some(u.actor), UserCreated, row, db, db', id);
        UserAddedCounted(Some(u.actor), UserCreated, row, db, db', id);
      } else {
        UserChangedCounted(u, db, db');
      }
    case OfAccount(c) =>
      if c.Bootstrap? {
        var row := U.NewRow(c.name, c.email, c.hash, Admin, start);
        var id: Uuid :| U.Added(None, UserBootstrapped, row, db, db', id);
        UserAddedCounted(None, UserBootstrapped, row, db, db', id);
      } else {
        var admin: Option<Uuid> :| C.SeededTo(3, start, c.hashes, db, db', admin);
        SeededCounted(3, start, c.hashes, db, db', admin);
      }
  }
}
