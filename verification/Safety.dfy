/**
 * The cross-row rules that no SQL check enforces, kept by every request that goes through:
 * an active technician behind every live assignment, a usable asset behind every live order,
 * an active administrator once there is one, and the row checks of the order table.
 */
module Safety {
  import opened Types
  import opened Policy
  import opened Requests
  import Numbers
  import O = OrderRequests
  import A = AssetRequests
  import U = UserRequests
  import C = AccountRequests

  /** The checks of the work-order table, timestamps included. */
  ghost predicate RowOk(w: Order) {
    && (w.status == Open ==> w.assignee == None)
    && (w.status == Assigned || w.status == InProgress || w.status == Completed ==> w.assignee.Some?)
    && (w.completed.Some? <==> w.status == Completed)
    && w.created <= w.updated
    && (w.completed.Some? ==> w.created <= w.completed.value)
    && Numbers.MatchesPattern(w.number)
  }

  ghost predicate AssigneeOk(users: map<Uuid, User>, w: Order) {
    w.assignee.Some? ==>
      && w.assignee.value in users
      && users[w.assignee.value].role == Technician
      && (!Terminal(w.status) ==> users[w.assignee.value].active)
  }

  ghost predicate AssetOk(assets: map<Uuid, Asset>, w: Order) {
    && w.asset in assets
    && (!Terminal(w.status) ==> Usable(assets[w.asset].status))
  }

  ghost predicate CodesUnique(assets: map<Uuid, Asset>) {
    forall a, b :: a in assets && b in assets && assets[a].code == assets[b].code ==> a == b
  }

  ghost predicate NumbersUnique(orders: map<Uuid, Order>) {
    forall o, p ::
      (o in orders && p in orders
       && Numbers.SequenceOf(orders[o].number) == Numbers.SequenceOf(orders[p].number)) ==> o == p
  }

  ghost predicate AdminKept(users: map<Uuid, User>) {
    HasAdmin(users) ==> ActiveAdmins(users) != {}
  }

  ghost predicate OrdersSound(db: Db) {
    forall o :: o in db.orders ==>
      && RowOk(db.orders[o]) && AssigneeOk(db.users, db.orders[o]) && AssetOk(db.assets, db.orders[o])
      && db.orders[o].createdBy in db.users
  }

  ghost predicate UsersSound(users: map<Uuid, User>) {
    && EmailsUnique(users) && AdminKept(users)
    && forall u :: u in users ==> users[u].created <= users[u].updated
  }

  ghost predicate AssetsSound(assets: map<Uuid, Asset>) {
    && CodesUnique(assets)
    && forall a :: a in assets ==> assets[a].created <= assets[a].updated
  }

  ghost predicate Sound(db: Db) {
    && UsersSound(db.users) && AssetsSound(db.assets)
    && OrdersSound(db) && NumbersUnique(db.orders)
    && db.gone !! db.assets.Keys
  }

  lemma EmptySound()
    ensures Sound(EMPTY)
  {
  }

  // ---- Orders

  lemma OrderAddedSound(req: O.OrderRequest, start: Time, db: Db, db': Db, id: Uuid, n: nat, year: nat)
    requires Sound(db) && req.Create? && req.actor in db.users && O.Verdict(req, db) == None
    requires O.Added(req, start, db, db', id, n, year)
    ensures Sound(db')
  {
    hide UsersSound, AssetsSound;
    Numbers.NumberReadsBack(year, n);
    var w := db'.orders[id];
    assert RowOk(w);
    assert AssetOk(db.assets, w);
  }

  lemma OrderChangedSound(req: O.OrderRequest, db: Db, db': Db)
    requires Sound(db) && !req.Create? && req.actor in db.users && O.Verdict(req, db) == None
    requires O.Changed(req, db, db')
    ensures Sound(db')
  {
    hide UsersSound, AssetsSound, O.Rows;
    if O.Actions(req, db.orders[req.order]) != [] {
      var was, now := db.orders[req.order], db'.orders[req.order];
      assert now.number == was.number && now.asset == was.asset && now.created == was.created;
      assert RowOk(now);
      assert AssigneeOk(db.users, now);
      assert AssetOk(db.assets, now);
    }
  }

  // ---- Assets

  lemma AssetAddedSound(req: A.AssetRequest, start: Time, db: Db, db': Db, id: Uuid)
    requires Sound(db) && req.Create? && A.Verdict(req, db) == None && A.Added(req, start, db, db', id)
    ensures Sound(db')
  {
    hide RowOk, AssigneeOk, UsersSound, NumbersUnique;
  }

  lemma AssetChangedSound(req: A.AssetRequest, db: Db, db': Db)
    requires Sound(db) && req.Patch? && A.Verdict(req, db) == None && A.Changed(req, db, db')
    ensures Sound(db')
  {
    hide RowOk, AssigneeOk, UsersSound, NumbersUnique;
  }

  lemma AssetRemovedSound(req: A.AssetRequest, db: Db, db': Db)
    requires Sound(db) && req.Delete? && A.Verdict(req, db) == None && A.Removed(req, db, db')
    ensures Sound(db')
  {
    hide RowOk, AssigneeOk, UsersSound, NumbersUnique;
  }

  lemma AssetSound(req: A.AssetRequest, start: Time, db: Db, db': Db)
    requires Sound(db) && A.Verdict(req, db) == None && A.Outcome(req, start, db, db')
    ensures Sound(db')
  {
    hide Sound;
    match req
    case Create(_, _, _, _, _, _) =>
      var id: Uuid :| A.Added(req, start, db, db', id);
      AssetAddedSound(req, start, db, db', id);
    case Patch(_, _, _) => AssetChangedSound(req, db, db');
    case Delete(_, _) => AssetRemovedSound(req, db, db');
  }

  // ---- Users

  lemma UserAddedSound(actor: Option<Uuid>, action: Action, row: User, db: Db, db': Db, id: Uuid)
    requires Sound(db) && U.Added(actor, action, row, db, db', id)
    requires !EmailTaken(db.users, row.email) && row.active && row.created <= row.updated
    ensures Sound(db')
  {
    if HasAdmin(db'.users) {
      if row.role == Admin {
        assert id in ActiveAdmins(db'.users);
      } else {
        assert HasAdmin(db.users);
        var a :| a in ActiveAdmins(db.users);
        assert a in ActiveAdmins(db'.users);
      }
    }
  }

  lemma OneMoreAdmin(admins: set<Uuid>, u: Uuid)
    requires 1 < |admins|
    ensures exists a :: a in admins && a != u
  {
    if forall a :: a in admins ==> a == u {
      assert admins <= {u};
      assert |admins| <= |{u}| by { Subset(admins, {u}); }
    }
  }

  lemma {:induction false} Subset(s: set<Uuid>, t: set<Uuid>)
    requires s <= t
    ensures |s| <= |t|
  {
    if s != {} {
      var x :| x in s;
      Subset(s - {x}, t - {x});
    }
  }

  lemma AssigneesStay(req: U.UserRequest, db: Db, db': Db)
    requires Sound(db) && req.Patch? && U.Verdict(req, db) == None && U.Changed(req, db, db')
    ensures OrdersSound(db')
  {
    forall o | o in db.orders ensures AssigneeOk(db'.users, db.orders[o]) {
      if !Terminal(db.orders[o].status) && db.orders[o].assignee == Some(req.user)
         && U.Deactivates(db.users[req.user], req.changes) {
        assert Live(db.orders[o], req.user);
      }
    }
  }

  lemma UserChangedSound(req: U.UserRequest, db: Db, db': Db)
    requires Sound(db) && req.Patch? && U.Verdict(req, db) == None && U.Changed(req, db, db')
    ensures Sound(db')
  {
    AssigneesStay(req, db, db');
    if HasAdmin(db'.users) {
      var a :| a in db'.users && db'.users[a].role == Admin;
      assert a in db.users && db.users[a].role == Admin;
      AdminStays(req, db, db');
    }
  }

  lemma AdminStays(req: U.UserRequest, db: Db, db': Db)
    requires Sound(db) && req.Patch? && U.Verdict(req, db) == None && U.Changed(req, db, db')
    requires HasAdmin(db.users)
    ensures ActiveAdmins(db'.users) != {}
  {
    var admins := ActiveAdmins(db.users);
    var a :| a in admins;
    if U.Deactivates(db.users[req.user], req.changes) && req.user == a {
      OneMoreAdmin(admins, req.user);
      var b :| b in admins && b != req.user;
      assert b in ActiveAdmins(db'.users);
    } else {
      assert a in ActiveAdmins(db'.users);
    }
  }

  lemma {:induction false} SeededSound(i: nat, start: Time, hashes: seq<string>, db: Db, db': Db, admin: Option<Uuid>)
    requires i <= 3 && |hashes| == 3 && Sound(db) && C.SeededTo(i, start, hashes, db, db', admin)
    ensures Sound(db')
  {
    if i != 0 {
      var mid: Db, a: Option<Uuid>, id: Uuid :|
        && C.SeedRound(i, start, hashes, mid, a, db', admin, id)
        && C.SeededTo(i - 1, start, hashes, db, mid, a);
      SeededSound(i - 1, start, hashes, db, mid, a);
      if !C.DemoPresent(mid.users, i - 1) {
        UserAddedSound(C.SeedActor(i - 1, a), C.SeedAction(i - 1), C.DemoRow(i - 1, hashes[i - 1], start),
                       mid, db', id);
      }
    }
  }

  /** Every request that goes through keeps the rules. */
  lemma AppliesSound(req: Request, start: Time, db: Db, db': Db)
    requires Sound(db) && Applies(req, start, db, db')
    ensures Sound(db')
  {
    match req
    case OfOrder(o) =>
      if o.Create? {
        var id: Uuid, n: nat, year: nat :| O.Added(o, start, db, db', id, n, year);
        OrderAddedSound(o, start, db, db', id, n, year);
      } else {
        OrderChangedSound(o, db, db');
      }
    case OfAsset(a) => AssetSound(a, start, db, db');
    case OfUser(u) =>
      if u.Create? {
        var row := U.NewRow(u.name, u.email, u.hash, u.role, start);
        var id: Uuid :| U.Added(Some(u.actor), UserCreated, row, db, db', id);
        UserAddedSound(Some(u.actor), UserCreated, row, db, db', id);
      } else {
        UserChangedSound(u, db, db');
      }
    case OfAccount(c) =>
      if c.Bootstrap? {
        var row := U.NewRow(c.name, c.email, c.hash, Admin, start);
        var id: Uuid :| U.Added(None, UserBootstrapped, row, db, db', id);
        UserAddedSound(None, UserBootstrapped, row, db, db', id);
      } else {
        var admin: Option<Uuid> :| C.SeededTo(3, start, c.hashes, db, db', admin);
        SeededSound(3, start, c.hashes, db, db', admin);
      }
  }

  /**
   * Under the seeded catalogue no user patch is ever refused as removing the last administrator:
   * actor and target would be two different active administrators.
   */
  lemma LastAdminNeverReturned(req: Request, db: Db)
    ensures Verdict(req, db) != Some(LastAdmin)
  {
    if req.OfUser? && req.user.Patch? && HasPermission(db.users, req.user.actor, CanUpdateUser) {
      var actor, target := req.user.actor, req.user.user;
      var admins := ActiveAdmins(db.users);
      assert actor in admins;
      if target in admins && target != actor {
        Subset({actor, target}, admins);
      }
    } else if req.OfAccount? && req.account.SeedDemo? {
      assert C.SeedVerdict(db.users, 0) != Some(LastAdmin) by {
        assert C.SeedVerdict(db.users, 2) != Some(LastAdmin);
        assert C.SeedVerdict(db.users, 1) != Some(LastAdmin);
      }
    }
  }

  /** No request ends in one of the driver's errors for a row that the code itself has just locked. */
  lemma NothingVanishes(req: Request, db: Db)
    ensures Verdict(req, db) != Some(RowVanished) && Verdict(req, db) != Some(Invalid)
  {
    if req.OfAccount? && req.account.SeedDemo? {
      assert C.SeedVerdict(db.users, 2) != Some(RowVanished) && C.SeedVerdict(db.users, 2) != Some(Invalid);
      assert C.SeedVerdict(db.users, 1) != Some(RowVanished) && C.SeedVerdict(db.users, 1) != Some(Invalid);
    }
  }

  /**
   * A patch that deactivates its target, with or without other changes, is refused only for the
   * actor's own account, for live orders or for a taken email address, whatever the target's role:
   * there is always another active administrator left.
   */
  lemma DeactivationExactly(req: U.UserRequest, db: Db)
    requires req.Patch? && HasPermission(db.users, req.actor, CanUpdateUser)
    requires req.user in db.users && U.Deactivates(db.users[req.user], req.changes)
    ensures Verdict(OfUser(req), db) ==
            if req.user == req.actor then Some(SelfDeactivation)
            else if HasLiveOrders(db.orders, req.user) then Some(ActiveOrders)
            else if EmailTakenByOther(db.users, req.user, U.Patched(db.users[req.user], req.changes).email) then
              Some(EmailConflict)
            else None
  {
    LastAdminNeverReturned(OfUser(req), db);
  }
}
