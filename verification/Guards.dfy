/**
 * What locks protect. `Guarded` says that the locks held keep an answer good until the
 * transaction ends, `Frame` what a transaction with given locks can have changed, and `Agree`
 * that two databases are the same in everything given locks protect.
 */
module Guards {
  import opened Types
  import opened Policy
  import opened Statements
  import Numbers

  predicate UserSafe(locks: set<Lock>, u: Uuid) {
    UserShared(u) in locks || UserExclusive(u) in locks || Administration in locks
  }

  ghost predicate Guarded(locks: set<Lock>, v: Db, s: Statement, answer: Answer) {
    match s
    case LockUserAdministration => true
    case PrelockUser(u) => true
    case ShareUser(u) => answer.UserRow? && answer.userRow.Some? && UserSafe(locks, u)
    case LockUser(u) => answer.UserRow? && answer.userRow.Some? && UserSafe(locks, u)
    case GetCurrentUser(u) => answer.UserRow? && answer.userRow.Some? && UserSafe(locks, u)
    case UserHasPermission(u, _) => answer == Truth(true) && UserSafe(locks, u)
    case CountActiveAdmins => Administration in locks
    case UserHasActiveOrders(u) => answer == Truth(false) && UserExclusive(u) in locks
    case HasAdministrator => Administration in locks
    case GetLoginUser(_) => Administration in locks
    case InsertUser(_) => answer.Inserted? && Administration in locks && FreshId(answer.id) in locks
    case UpdateUser(u, _) =>
      answer.UserRow? && answer.userRow.Some? && Administration in locks && UserExclusive(u) in locks
    case ShareAsset(a) => answer.AssetRow? && answer.assetRow.Some? && AssetShared(a) in locks
    case LockAsset(a) => answer.AssetRow? && answer.assetRow.Some? && AssetExclusive(a) in locks
    case AssetHasOrders(a) => answer == Truth(false) && AssetExclusive(a) in locks
    case AssetHasOpenOrders(a) => answer == Truth(false) && AssetExclusive(a) in locks
    case InsertAsset(row) => answer.Inserted? && CodeEntry(row.code) in locks && FreshId(answer.id) in locks
    case UpdateAsset(a, _) => answer.AssetRow? && answer.assetRow.Some? && AssetExclusive(a) in locks
    case DeleteAsset(a, _) => AssetExclusive(a) in locks && a in v.assets
    case LockWorkOrder(o) => answer.OrderRow? && answer.orderRow.Some? && OrderExclusive(o) in locks
    case InsertWorkOrder(row) =>
      && answer.InsertedOrder? && FreshId(answer.id) in locks && FreshNumber(answer.number) in locks
      && AssetShared(row.asset) in locks && row.status == Open && row.assignee == None
    case UpdateWorkOrder(o, next) =>
      && answer.OrderRow? && answer.orderRow.Some? && OrderExclusive(o) in locks
      && o in v.orders && !Terminal(v.orders[o].status)
      && (forall u :: Live(next, u) ==> Live(v.orders[o], u) || UserShared(u) in locks)
    case InsertAudit(_) => true
  }

  ghost predicate FrameUsers(locks: set<Lock>, users: map<Uuid, User>, users': map<Uuid, User>) {
    && (forall u :: u in users ==> u in users')
    && (forall u :: u in users && users'[u] != users[u] ==> UserExclusive(u) in locks)
    && (users' != users ==> Administration in locks)
  }

  ghost predicate FrameAssets(locks: set<Lock>, assets: map<Uuid, Asset>, assets': map<Uuid, Asset>) {
    && (forall a :: a in assets && !(a in assets' && assets'[a] == assets[a]) ==> AssetExclusive(a) in locks)
    && (forall a :: a in assets' ==>
          || (a in assets && assets[a].code == assets'[a].code)
          || CodeEntry(assets'[a].code) in locks)
  }

  ghost predicate FrameOrders(locks: set<Lock>, orders: map<Uuid, Order>, orders': map<Uuid, Order>) {
    && (forall o :: o in orders ==> o in orders')
    && (forall o :: o in orders && orders'[o] != orders[o] ==> OrderExclusive(o) in locks)
    && (forall o, u :: o in orders' && Live(orders'[o], u) ==>
          (o in orders && Live(orders[o], u)) || UserShared(u) in locks)
    && (forall o :: o in orders' ==>
          || (o in orders && orders[o].asset == orders'[o].asset
              && (Terminal(orders[o].status) ==> Terminal(orders'[o].status)))
          || AssetShared(orders'[o].asset) in locks)
    && (forall o :: o in orders' ==>
          || (o in orders && orders[o].number == orders'[o].number)
          || FreshNumber(Numbers.SequenceOf(orders'[o].number)) in locks)
  }

  /** A transaction holding `locks` may have turned `db` into `v`. */
  ghost predicate Frame(locks: set<Lock>, db: Db, v: Db) {
    && FrameUsers(locks, db.users, v.users)
    && FrameAssets(locks, db.assets, v.assets)
    && FrameOrders(locks, db.orders, v.orders)
    && (forall id :: Known(v, id) ==> Known(db, id) || FreshId(id) in locks)
  }

  ghost predicate AgreeUsers(locks: set<Lock>, users: map<Uuid, User>, users': map<Uuid, User>) {
    && (forall u :: u in users && (UserShared(u) in locks || UserExclusive(u) in locks) ==>
          u in users' && users'[u] == users[u])
    && (Administration in locks ==> users' == users)
  }

  ghost predicate AgreeAssets(locks: set<Lock>, assets: map<Uuid, Asset>, assets': map<Uuid, Asset>) {
    && (forall a :: a in assets && (AssetShared(a) in locks || AssetExclusive(a) in locks) ==>
          a in assets' && assets'[a] == assets[a])
    && (forall a :: a in assets' && CodeEntry(assets'[a].code) in locks ==>
          a in assets && assets[a].code == assets'[a].code)
  }

  ghost predicate AgreeOrders(locks: set<Lock>, orders: map<Uuid, Order>, orders': map<Uuid, Order>) {
    && (forall o :: o in orders && OrderExclusive(o) in locks ==> o in orders' && orders'[o] == orders[o])
    && (forall o, u :: o in orders' && Live(orders'[o], u) && UserExclusive(u) in locks ==>
          o in orders && Live(orders[o], u))
    && (forall o :: o in orders' && AssetExclusive(orders'[o].asset) in locks ==>
          && o in orders && orders[o].asset == orders'[o].asset
          && (Terminal(orders[o].status) ==> Terminal(orders'[o].status)))
    && (forall o :: o in orders' && FreshNumber(Numbers.SequenceOf(orders'[o].number)) in locks ==>
          o in orders && orders[o].number == orders'[o].number)
  }

  /** `w` is `v` in all that `locks` protect. */
  ghost predicate Agree(locks: set<Lock>, v: Db, w: Db) {
    && AgreeUsers(locks, v.users, w.users)
    && AgreeAssets(locks, v.assets, w.assets)
    && AgreeOrders(locks, v.orders, w.orders)
    && (forall id :: Known(w, id) && FreshId(id) in locks ==> Known(v, id))
  }

  ghost predicate Apart(mine: set<Lock>, theirs: set<Lock>) {
    forall k, l :: k in mine && l in theirs ==> !Conflict(k, l)
  }

  /** Sharing is not a conflict, and everything else about one row or one index entry is. */
  lemma ConflictsAreMutual(k: Lock, l: Lock)
    ensures Conflict(k, l) <==> Conflict(l, k)
    ensures Conflict(k, l) && k != l ==>
            exists x :: {k, l} == {UserShared(x), UserExclusive(x)} || {k, l} == {AssetShared(x), AssetExclusive(x)}
    ensures Conflict(k, k) <==> !k.UserShared? && !k.AssetShared?
  {
    if k != l && Conflict(k, l) {
      match k
      case UserShared(u) => assert {k, l} == {UserShared(u), UserExclusive(u)};
      case UserExclusive(u) => assert {k, l} == {UserShared(u), UserExclusive(u)};
      case AssetShared(a) => assert {k, l} == {AssetShared(a), AssetExclusive(a)};
      case AssetExclusive(a) => assert {k, l} == {AssetShared(a), AssetExclusive(a)};
    }
  }

  lemma ApartBothWays(mine: set<Lock>, theirs: set<Lock>)
    requires Apart(mine, theirs)
    ensures Apart(theirs, mine)
  {
    forall k, l | k in theirs && l in mine ensures !Conflict(k, l) {
      assert !Conflict(l, k);
    }
  }

  /** What another transaction commits leaves everything alone that my locks protect. */
  lemma FrameAgrees(mine: set<Lock>, theirs: set<Lock>, db: Db, db': Db)
    requires Frame(theirs, db, db') && Apart(mine, theirs)
    ensures Agree(mine, db, db')
  {
    forall u | u in db.users && (UserShared(u) in mine || UserExclusive(u) in mine)
      ensures db'.users[u] == db.users[u]
    {
      assert Conflict(UserShared(u), UserExclusive(u)) && Conflict(UserExclusive(u), UserExclusive(u));
    }
    assert Conflict(Administration, Administration);
    AssetsAgree(mine, theirs, db.assets, db'.assets);
    OrdersAgree(mine, theirs, db.orders, db'.orders);
    forall id | Known(db', id) && FreshId(id) in mine ensures Known(db, id) {
      assert Conflict(FreshId(id), FreshId(id));
    }
  }

  lemma AssetsAgree(mine: set<Lock>, theirs: set<Lock>, assets: map<Uuid, Asset>, assets': map<Uuid, Asset>)
    requires FrameAssets(theirs, assets, assets') && Apart(mine, theirs)
    ensures AgreeAssets(mine, assets, assets')
  {
    forall a | a in assets && (AssetShared(a) in mine || AssetExclusive(a) in mine)
      ensures a in assets' && assets'[a] == assets[a]
    {
      assert Conflict(AssetShared(a), AssetExclusive(a)) && Conflict(AssetExclusive(a), AssetExclusive(a));
    }
    forall a | a in assets' && CodeEntry(assets'[a].code) in mine
      ensures a in assets && assets[a].code == assets'[a].code
    {
      assert Conflict(CodeEntry(assets'[a].code), CodeEntry(assets'[a].code));
    }
  }

  lemma OrdersAgree(mine: set<Lock>, theirs: set<Lock>, orders: map<Uuid, Order>, orders': map<Uuid, Order>)
    requires FrameOrders(theirs, orders, orders') && Apart(mine, theirs)
    ensures AgreeOrders(mine, orders, orders')
  {
    forall o | o in orders && OrderExclusive(o) in mine ensures o in orders' && orders'[o] == orders[o] {
      assert Conflict(OrderExclusive(o), OrderExclusive(o));
    }
    forall o, u | o in orders' && Live(orders'[o], u) && UserExclusive(u) in mine
      ensures o in orders && Live(orders[o], u)
    {
      assert Conflict(UserExclusive(u), UserShared(u));
    }
    forall o | o in orders' && AssetExclusive(orders'[o].asset) in mine
      ensures && o in orders && orders[o].asset == orders'[o].asset
              && (Terminal(orders[o].status) ==> Terminal(orders'[o].status))
    {
      assert Conflict(AssetExclusive(orders'[o].asset), AssetShared(orders'[o].asset));
    }
    forall o | o in orders' && FreshNumber(Numbers.SequenceOf(orders'[o].number)) in mine
      ensures o in orders && orders[o].number == orders'[o].number
    {
      var n := Numbers.SequenceOf(orders'[o].number);
      assert Conflict(FreshNumber(n), FreshNumber(n));
    }
  }

  // ---- A guarded answer stays good

  predicate IsRead(s: Statement) {
    !s.InsertUser? && !s.UpdateUser? && !s.InsertAsset? && !s.UpdateAsset? && !s.DeleteAsset?
    && !s.InsertWorkOrder? && !s.UpdateWorkOrder? && !s.InsertAudit?
  }

  lemma ReadStays(locks: set<Lock>, v: Db, w: Db, s: Statement, answer: Answer)
    requires IsRead(s) && Agree(locks, v, w) && Guarded(locks, v, s, answer) && Allows(s, v, answer)
    ensures Allows(s, w, answer) && Guarded(locks, w, s, answer)
    ensures Effect(s, answer, v) == v && Effect(s, answer, w) == w
  {
  }

  lemma WriteStays(locks: set<Lock>, v: Db, w: Db, s: Statement, answer: Answer)
    requires !IsRead(s) && Agree(locks, v, w) && Guarded(locks, v, s, answer) && Allows(s, v, answer)
    ensures Allows(s, w, answer) && Guarded(locks, w, s, answer)
  {
    hide HasPermission;
  }

  lemma PutUserAgrees(locks: set<Lock>, v: Db, w: Db, u: Uuid, row: User)
    requires Agree(locks, v, w)
    ensures Agree(locks, v.(users := v.users[u := row]), w.(users := w.users[u := row]))
  {
    hide AgreeAssets, AgreeOrders;
  }

  lemma PutAssetAgrees(locks: set<Lock>, v: Db, w: Db, a: Uuid, row: Asset)
    requires Agree(locks, v, w)
    ensures Agree(locks, v.(assets := v.assets[a := row]), w.(assets := w.assets[a := row]))
  {
    hide AgreeUsers, AgreeOrders;
  }

  lemma PutOrderAgrees(locks: set<Lock>, v: Db, w: Db, o: Uuid, row: Order)
    requires Agree(locks, v, w)
    ensures Agree(locks, v.(orders := v.orders[o := row]), w.(orders := w.orders[o := row]))
  {
    hide AgreeUsers, AgreeAssets;
  }

  lemma DropAssetAgrees(locks: set<Lock>, v: Db, w: Db, a: Uuid)
    requires Agree(locks, v, w)
    ensures Agree(locks, v.(assets := v.assets - {a}, gone := v.gone + {a}),
                  w.(assets := w.assets - {a}, gone := w.gone + {a}))
  {
    hide AgreeUsers, AgreeOrders;
  }

  lemma AuditAgrees(locks: set<Lock>, v: Db, w: Db, row: Audit)
    requires Agree(locks, v, w)
    ensures Agree(locks, v.(log := v.log + [row]), w.(log := w.log + [row]))
  {
    hide AgreeUsers, AgreeAssets, AgreeOrders;
  }

  lemma EffectsAgree(locks: set<Lock>, v: Db, w: Db, s: Statement, answer: Answer)
    requires !IsRead(s) && Agree(locks, v, w) && Guarded(locks, v, s, answer)
    ensures Agree(locks, Effect(s, answer, v), Effect(s, answer, w))
  {
    hide Agree;
    match s
    case InsertUser(row) => PutUserAgrees(locks, v, w, answer.id, row);
    case UpdateUser(u, _) => PutUserAgrees(locks, v, w, u, answer.userRow.value);
    case InsertAsset(row) => PutAssetAgrees(locks, v, w, answer.id, row);
    case UpdateAsset(a, _) => PutAssetAgrees(locks, v, w, a, answer.assetRow.value);
    case DeleteAsset(a, _) => DropAssetAgrees(locks, v, w, a);
    case InsertWorkOrder(_) => PutOrderAgrees(locks, v, w, answer.id, answer.order);
    case UpdateWorkOrder(o, _) => PutOrderAgrees(locks, v, w, o, answer.orderRow.value);
    case InsertAudit(row) => AuditAgrees(locks, v, w, row);
  }

  /** Two views that agree before a guarded answer allow it alike and agree after it. */
  lemma GuardedStays(locks: set<Lock>, v: Db, w: Db, s: Statement, answer: Answer)
    requires Agree(locks, v, w) && Guarded(locks, v, s, answer) && Allows(s, v, answer)
    ensures Allows(s, w, answer) && Guarded(locks, w, s, answer)
    ensures Agree(locks, Effect(s, answer, v), Effect(s, answer, w))
  {
    if IsRead(s) {
      ReadStays(locks, v, w, s, answer);
    } else {
      WriteStays(locks, v, w, s, answer);
      EffectsAgree(locks, v, w, s, answer);
    }
  }

  // ---- Guarded writes stay within the frame

  lemma UserFrameSteps(locks: set<Lock>, db: Db, v: Db, s: Statement, answer: Answer)
    requires s.InsertUser? || s.UpdateUser?
    requires Frame(locks, db, v) && Guarded(locks, v, s, answer) && Allows(s, v, answer)
    ensures Frame(locks, db, Effect(s, answer, v))
  {
    hide FrameAssets, FrameOrders;
  }

  lemma AssetFrameSteps(locks: set<Lock>, db: Db, v: Db, s: Statement, answer: Answer)
    requires s.InsertAsset? || s.UpdateAsset? || s.DeleteAsset?
    requires Frame(locks, db, v) && Guarded(locks, v, s, answer) && Allows(s, v, answer)
    ensures Frame(locks, db, Effect(s, answer, v))
  {
    hide FrameUsers, FrameOrders;
  }

  /** One order row more, or another version of one, with what its locks have to allow. */
  lemma PutOrderFrames(locks: set<Lock>, orders: map<Uuid, Order>, m: map<Uuid, Order>, o: Uuid, row: Order)
    requires FrameOrders(locks, orders, m)
    requires o in orders ==> OrderExclusive(o) in locks
    requires forall u :: Live(row, u) ==> (o in m && Live(m[o], u)) || UserShared(u) in locks
    requires || AssetShared(row.asset) in locks
             || (o in m && m[o].asset == row.asset && !Terminal(m[o].status))
    requires || FreshNumber(Numbers.SequenceOf(row.number)) in locks
             || (o in m && m[o].number == row.number)
    ensures FrameOrders(locks, orders, m[o := row])
  {
  }

  lemma OrderFrameSteps(locks: set<Lock>, db: Db, v: Db, s: Statement, answer: Answer)
    requires s.InsertWorkOrder? || s.UpdateWorkOrder?
    requires Frame(locks, db, v) && Guarded(locks, v, s, answer) && Allows(s, v, answer)
    ensures Frame(locks, db, Effect(s, answer, v))
  {
    if s.InsertWorkOrder? {
      Numbers.NumberReadsBack(answer.year, answer.number);
      PutOrderFrames(locks, db.orders, v.orders, answer.id, answer.order);
    } else {
      PutOrderFrames(locks, db.orders, v.orders, s.o, answer.orderRow.value);
    }
  }

  lemma FrameSteps(locks: set<Lock>, db: Db, v: Db, s: Statement, answer: Answer)
    requires Frame(locks, db, v) && Guarded(locks, v, s, answer) && Allows(s, v, answer)
    ensures Frame(locks, db, Effect(s, answer, v))
  {
    if s.InsertUser? || s.UpdateUser? { UserFrameSteps(locks, db, v, s, answer); }
    else if s.InsertAsset? || s.UpdateAsset? || s.DeleteAsset? { AssetFrameSteps(locks, db, v, s, answer); }
    else if s.InsertWorkOrder? || s.UpdateWorkOrder? { OrderFrameSteps(locks, db, v, s, answer); }
  }

  lemma FrameRefl(locks: set<Lock>, db: Db)
    ensures Frame(locks, db, db)
  {
  }

  /** More locks guard at least as much. */
  lemma MoreGuards(locks: set<Lock>, more: set<Lock>, v: Db, s: Statement, answer: Answer)
    requires locks <= more && Guarded(locks, v, s, answer)
    ensures Guarded(more, v, s, answer)
  {
  }
}
