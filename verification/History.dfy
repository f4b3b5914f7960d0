/**
 * What the audit log tells, in commit order: for every entity an unbroken chain from its creation
 * to its present row, one row for every status change of an order, and at most one bootstrap.
 */
module History {
  import opened Types
  import opened Requests
  import O = OrderRequests
  import A = AssetRequests
  import U = UserRequests
  import C = AccountRequests

  // ---- Chains

  /** The last audit row of an entity. */
  function LastRow(log: seq<Audit>, kind: Kind, id: Uuid): Option<Audit>
    decreases |log|
  {
    if log == [] then None
    else
      var row := log[|log| - 1];
      if row.kind == kind && row.id == id then Some(row) else LastRow(log[..|log| - 1], kind, id)
  }

  /** Only the row of the change itself mentions that a password was changed. */
  function Shown(s: Snapshot): Snapshot {
    if s.UserSnapshot? then s.(passwordChanged := false) else s
  }

  /** The second row of an assignment out of OPEN repeats the snapshots of the first. */
  predicate Twin(prev: Audit, row: Audit) {
    && prev.action == OrderAssigned && row.action == OrderStatusChanged
    && row.before == prev.before && row.after == prev.after
  }

  predicate Continues(prev: Option<Audit>, row: Audit) {
    match prev
    case None => row.before == None && row.after.Some?
    case Some(p) =>
      && p.after.Some? && row.before.Some?
      && (Shown(row.before.value) == Shown(p.after.value) || Twin(p, row))
  }

  /** Each row continues the one before it of the same entity. */
  predicate Chained(log: seq<Audit>)
    decreases |log|
  {
    log == [] ||
    (var row, before := log[|log| - 1], log[..|log| - 1];
     Chained(before) && Continues(LastRow(before, row.kind, row.id), row))
  }

  /** The public form of an entity's present row. */
  function Current(db: Db, kind: Kind, id: Uuid): Option<Snapshot> {
    match kind
    case UserEntity =>
      if id in db.users then
        var u := db.users[id];
        Some(UserSnapshot(id, u.name, u.email, u.role, u.active, false))
      else None
    case AssetEntity => if id in db.assets then Some(AssetSnapshot(id, db.assets[id])) else None
    case OrderEntity => if id in db.orders then Some(OrderSnapshot(id, db.orders[id])) else None
  }

  predicate TipMatches(last: Option<Audit>, current: Option<Snapshot>, gone: bool) {
    match last
    case None => current == None
    case Some(row) =>
      match row.after
      case Some(s) => current == Some(Shown(s))
      case None => current == None && gone
  }

  ghost predicate Tips(db: Db) {
    forall kind, id :: TipMatches(LastRow(db.log, kind, id), Current(db, kind, id), id in db.gone)
  }

  ghost predicate Told(db: Db) {
    Chained(db.log) && Tips(db)
  }

  /** No row of an entity stands between a row of it and the end of the log. */
  lemma {:induction false} LastRowAt(log: seq<Audit>, kind: Kind, id: Uuid, r: nat)
    requires r < |log| && log[r].kind == kind && log[r].id == id
    requires forall s :: r < s < |log| ==> log[s].kind != kind || log[s].id != id
    ensures LastRow(log, kind, id) == Some(log[r])
    decreases |log|
  {
    if r < |log| - 1 {
      LastRowAt(log[..|log| - 1], kind, id, r);
    }
  }

  /** In an unbroken log nothing follows a deletion. */
  lemma {:induction false} NothingFollows(log: seq<Audit>, r: nat, s: nat)
    requires Chained(log) && r < s < |log| && log[r].after == None
    ensures log[s].kind != log[r].kind || log[s].id != log[r].id
    decreases |log|, s
  {
    var before := log[..|log| - 1];
    if s < |before| {
      NothingFollows(before, r, s);
    } else {
      forall t | r < t < |before| ensures before[t].kind != log[r].kind || before[t].id != log[r].id {
        NothingFollows(before, r, t);
      }
      LastRowAt(before, log[r].kind, log[r].id, r);
      assert Continues(LastRow(before, log[s].kind, log[s].id), log[s]);
    }
  }

  /** In an unbroken log the first row of an entity has no old value, and every other row has one. */
  lemma {:induction false} FirstRowOnly(log: seq<Audit>, s: nat)
    requires Chained(log) && s < |log|
    ensures log[s].before == None <==> forall r :: 0 <= r < s ==> log[r].kind != log[s].kind || log[r].id != log[s].id
    decreases |log|
  {
    var before := log[..|log| - 1];
    if s < |before| {
      FirstRowOnly(before, s);
    } else {
      assert Continues(LastRow(before, log[s].kind, log[s].id), log[s]);
      LastRowFound(before, log[s].kind, log[s].id);
    }
  }

  lemma {:induction false} LastRowFound(log: seq<Audit>, kind: Kind, id: Uuid)
    ensures LastRow(log, kind, id) == None <==> forall r :: 0 <= r < |log| ==> log[r].kind != kind || log[r].id != id
    decreases |log|
  {
    if log != [] { LastRowFound(log[..|log| - 1], kind, id); }
  }

  lemma LastRowAppend(log: seq<Audit>, row: Audit, kind: Kind, id: Uuid)
    ensures LastRow(log + [row], kind, id) ==
            if row.kind == kind && row.id == id then Some(row) else LastRow(log, kind, id)
  {
    assert (log + [row])[..|log|] == log;
  }

  /** One more audit row, for the one entity that changed. */
  lemma OneMoreRow(db: Db, db': Db, row: Audit)
    requires Told(db) && db'.log == db.log + [row] && db.gone <= db'.gone
    requires Continues(LastRow(db.log, row.kind, row.id), row)
    requires TipMatches(Some(row), Current(db', row.kind, row.id), row.id in db'.gone)
    requires forall kind, id ::
               (kind != row.kind || id != row.id) ==> Current(db', kind, id) == Current(db, kind, id)
    ensures Told(db')
  {
    assert (db.log + [row])[..|db.log|] == db.log;
    forall kind, id ensures TipMatches(LastRow(db'.log, kind, id), Current(db', kind, id), id in db'.gone) {
      LastRowAppend(db.log, row, kind, id);
      assert TipMatches(LastRow(db.log, kind, id), Current(db, kind, id), id in db.gone);
    }
  }

  lemma NewIdUntold(db: Db, kind: Kind, id: Uuid)
    requires Tips(db) && !Known(db, id)
    ensures LastRow(db.log, kind, id) == None
  {
    assert TipMatches(LastRow(db.log, kind, id), Current(db, kind, id), id in db.gone);
  }

  lemma OrderAddedTold(req: O.OrderRequest, start: Time, db: Db, db': Db, id: Uuid, n: nat, year: nat)
    requires Told(db) && req.Create? && O.Added(req, start, db, db', id, n, year)
    ensures Told(db')
  {
    NewIdUntold(db, OrderEntity, id);
    OneMoreRow(db, db', O.Creation(req.actor, id, db'.orders[id]));
  }

  lemma OrderChangedTold(req: O.OrderRequest, db: Db, db': Db)
    requires Told(db) && !req.Create? && req.order in db.orders && O.Changed(req, db, db')
    ensures Told(db')
  {
    var o, was := req.order, db.orders[req.order];
    if O.Actions(req, was) != [] {
      var now := db'.orders[o];
      O.ChangeRows(req, was, now);
      var first := O.Row(req.actor, o, O.Actions(req, was)[0], was, now);
      var mid := db.(orders := db.orders[o := now], log := db.log + [first]);
      assert TipMatches(LastRow(db.log, OrderEntity, o), Current(db, OrderEntity, o), o in db.gone);
      OneMoreRow(db, mid, first);
      if req.Assign? && was.status == Open {
        var second := O.Row(req.actor, o, OrderStatusChanged, was, now);
        LastRowAppend(db.log, first, OrderEntity, o);
        assert db'.log == mid.log + [second];
        OneMoreRow(mid, db', second);
      }
    }
  }

  lemma AssetAddedTold(req: A.AssetRequest, start: Time, db: Db, db': Db, id: Uuid)
    requires Told(db) && req.Create? && A.Added(req, start, db, db', id)
    ensures Told(db')
  {
    NewIdUntold(db, AssetEntity, id);
    OneMoreRow(db, db', A.AssetAudit(req.actor, AssetCreated, id, None, Some(A.NewRow(req, start))));
  }

  lemma AssetTold(req: A.AssetRequest, start: Time, db: Db, db': Db)
    requires Told(db) && A.Verdict(req, db) == None && A.Outcome(req, start, db, db')
    ensures Told(db')
  {
    match req
    case Create(_, _, _, _, _, _) =>
      var id: Uuid :| A.Added(req, start, db, db', id);
      AssetAddedTold(req, start, db, db', id);
    case Patch(_, a, c) =>
      if A.Patched(db.assets[a], c) != db.assets[a] {
        assert TipMatches(LastRow(db.log, AssetEntity, a), Current(db, AssetEntity, a), a in db.gone);
        OneMoreRow(db, db', A.AssetAudit(req.actor, AssetUpdated, a, Some(db.assets[a]), Some(db'.assets[a])));
      }
    case Delete(_, a) =>
      assert TipMatches(LastRow(db.log, AssetEntity, a), Current(db, AssetEntity, a), a in db.gone);
      OneMoreRow(db, db', A.AssetAudit(req.actor, AssetDeleted, a, Some(db.assets[a]), None));
  }

  lemma UserAddedTold(actor: Option<Uuid>, action: Action, row: User, db: Db, db': Db, id: Uuid)
    requires Told(db) && U.Added(actor, action, row, db, db', id)
    ensures Told(db')
  {
    NewIdUntold(db, UserEntity, id);
    OneMoreRow(db, db', U.Creation(actor, action, id, row));
  }

  lemma UserChangedTold(req: U.UserRequest, db: Db, db': Db)
    requires Told(db) && req.Patch? && U.Verdict(req, db) == None && U.Changed(req, db, db')
    ensures Told(db')
  {
    var u := req.user;
    if !U.Idle(db.users[u], req.changes) {
      assert TipMatches(LastRow(db.log, UserEntity, u), Current(db, UserEntity, u), u in db.gone);
      OneMoreRow(db, db', U.Update(req.actor, u, db.users[u].role, db.users[u], db'.users[u], req.changes.hash.Some?));
    }
  }

  lemma {:induction false} SeededTold(i: nat, start: Time, hashes: seq<string>, db: Db, db': Db, admin: Option<Uuid>)
    requires i <= 3 && |hashes| == 3 && Told(db) && C.SeededTo(i, start, hashes, db, db', admin)
    ensures Told(db')
  {
    if i != 0 {
      var mid: Db, a: Option<Uuid>, id: Uuid :|
        && C.SeedRound(i, start, hashes, mid, a, db', admin, id)
        && C.SeededTo(i - 1, start, hashes, db, mid, a);
      SeededTold(i - 1, start, hashes, db, mid, a);
      if !C.DemoPresent(mid.users, i - 1) {
        UserAddedTold(C.SeedActor(i - 1, a), C.SeedAction(i - 1), C.DemoRow(i - 1, hashes[i - 1], start), mid, db', id);
      }
    }
  }

  /** Every request that goes through keeps the chains unbroken and up to date. */
  lemma AppliesTold(req: Request, start: Time, db: Db, db': Db)
    requires Told(db) && Applies(req, start, db, db')
    ensures Told(db')
  {
    match req
    case OfOrder(o) =>
      if o.Create? {
        var id: Uuid, n: nat, year: nat :| O.Added(o, start, db, db', id, n, year);
        OrderAddedTold(o, start, db, db', id, n, year);
      } else {
        OrderChangedTold(o, db, db');
      }
    case OfAsset(a) => AssetTold(a, start, db, db');
    case OfUser(u) =>
      if u.Create? {
        var row := U.NewRow(u.name, u.email, u.hash, u.role, start);
        var id: Uuid :| U.Added(Some(u.actor), UserCreated, row, db, db', id);
        UserAddedTold(Some(u.actor), UserCreated, row, db, db', id);
      } else {
        UserChangedTold(u, db, db');
      }
    case OfAccount(c) =>
      if c.Bootstrap? {
        var row := U.NewRow(c.name, c.email, c.hash, Admin, start);
        var id: Uuid :| U.Added(None, UserBootstrapped, row, db, db', id);
        UserAddedTold(None, UserBootstrapped, row, db, db', id);
      } else {
        var admin: Option<Uuid> :| C.SeededTo(3, start, c.hashes, db, db', admin);
        SeededTold(3, start, c.hashes, db, db', admin);
      }
  }
}
