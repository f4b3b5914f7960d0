/**
 * When a request is refused and with which error, in terms of the rows alone: the actor's role,
 * the status of the order or asset, and who has what. The permission catalogue, the resource scope,
 * the lifecycle and the order of the checks come together here.
 */
module Refusals {
  import opened Types
  import opened Policy
  import opened Requests
  import O = OrderRequests
  import A = AssetRequests
  import U = UserRequests
  import C = AccountRequests
  import S = Safety

  predicate Acts(db: Db, actor: Uuid) {
    actor in db.users && db.users[actor].active
  }

  // ---- Work orders

  lemma OrderCreateRefused(req: O.OrderRequest, db: Db)
    requires req.Create?
    ensures Verdict(OfOrder(req), db) ==
            if !Acts(db, req.actor) then Some(Inactive)
            else if db.users[req.actor].role == Technician then Some(Forbidden)
            else if req.asset !in db.assets then Some(AssetNotFound)
            else if db.assets[req.asset].status in {InactiveAsset, RetiredAsset} then Some(AssetUnavailable)
            else None
  {
  }

  lemma OrderPatchRefused(req: O.OrderRequest, db: Db)
    requires req.Patch?
    ensures Verdict(OfOrder(req), db) ==
            if !Acts(db, req.actor) then Some(Inactive)
            else if db.users[req.actor].role == Technician then Some(Forbidden)
            else if req.order !in db.orders then Some(OrderNotFound)
            else if db.orders[req.order].status in {Completed, Cancelled} then Some(TerminalOrder)
            else None
  {
  }

  lemma OrderAssignRefused(req: O.OrderRequest, db: Db)
    requires req.Assign?
    ensures Verdict(OfOrder(req), db) ==
            if !Acts(db, req.actor) then Some(Inactive)
            else if db.users[req.actor].role == Technician then Some(Forbidden)
            else if req.order !in db.orders then Some(OrderNotFound)
            else if db.orders[req.order].status in {Completed, Cancelled} then Some(TerminalOrder)
            else if db.orders[req.order].status == InProgress then Some(InvalidAssignment)
            else if db.orders[req.order].assignee == Some(req.target) then Some(AlreadyAssigned)
            else if Acts(db, req.target) && db.users[req.target].role == Technician then None
            else Some(InvalidAssignee)
  {
  }

  /** Technicians move their own orders along, and only managers and administrators cancel. */
  lemma OrderMoveRefused(req: O.OrderRequest, db: Db)
    requires req.Move?
    ensures Verdict(OfOrder(req), db) ==
            if !Acts(db, req.actor) then Some(Inactive)
            else if db.users[req.actor].role == Technician && req.to == Cancelled then Some(Forbidden)
            else if req.order !in db.orders then Some(OrderNotFound)
            else
              var w := db.orders[req.order];
              if db.users[req.actor].role == Technician && w.assignee != Some(req.actor) then Some(Forbidden)
              else if w.status in {Completed, Cancelled} then Some(TerminalOrder)
              else if || req.to == Cancelled
                      || (w.status, req.to) in {(Assigned, InProgress), (InProgress, Completed)} then None
              else Some(InvalidTransition)
  {
  }

  // ---- Assets

  lemma AssetCreateRefused(req: A.AssetRequest, db: Db)
    requires req.Create?
    ensures Verdict(OfAsset(req), db) ==
            if !Acts(db, req.actor) then Some(Inactive)
            else if db.users[req.actor].role == Technician then Some(Forbidden)
            else if exists a :: a in db.assets && db.assets[a].code == req.code then Some(CodeConflict)
            else None
  {
  }

  /** An asset can leave service exactly when no order on it is open, assigned or in progress. */
  lemma AssetPatchRefused(req: A.AssetRequest, db: Db)
    requires req.Patch?
    ensures Verdict(OfAsset(req), db) ==
            if !Acts(db, req.actor) then Some(Inactive)
            else if db.users[req.actor].role == Technician then Some(Forbidden)
            else if req.asset !in db.assets then Some(AssetNotFound)
            else if && req.changes.status in {Some(InactiveAsset), Some(RetiredAsset)}
                    && req.changes.status != Some(db.assets[req.asset].status)
                    && exists o :: o in db.orders && db.orders[o].asset == req.asset
                                   && db.orders[o].status in {Open, Assigned, InProgress} then Some(AssetBusy)
            else None
  {
  }

  lemma AssetDeleteRefused(req: A.AssetRequest, db: Db)
    requires req.Delete?
    ensures Verdict(OfAsset(req), db) ==
            if !Acts(db, req.actor) then Some(Inactive)
            else if db.users[req.actor].role != Admin then Some(Forbidden)
            else if req.asset !in db.assets then Some(AssetNotFound)
            else if exists o :: o in db.orders && db.orders[o].asset == req.asset then Some(AssetInUse)
            else None
  {
  }

  // ---- Users

  lemma UserCreateRefused(req: U.UserRequest, db: Db)
    requires req.Create?
    ensures Verdict(OfUser(req), db) ==
            if !Acts(db, req.actor) then Some(Inactive)
            else if db.users[req.actor].role != Admin then Some(Forbidden)
            else if exists u :: u in db.users && db.users[u].email == req.email then Some(EmailConflict)
            else None
  {
  }

  /** The guard against removing the last administrator is there, and never speaks. */
  lemma UserPatchRefused(req: U.UserRequest, db: Db)
    requires req.Patch? && EmailsUnique(db.users)
    ensures Verdict(OfUser(req), db) ==
            if !Acts(db, req.actor) then Some(Inactive)
            else if db.users[req.actor].role != Admin then Some(Forbidden)
            else if req.user !in db.users then Some(UserNotFound)
            else
              var off := db.users[req.user].active && req.changes.active == Some(false);
              if off && req.user == req.actor then Some(SelfDeactivation)
              else if off && exists o :: o in db.orders && db.orders[o].status in {Assigned, InProgress}
                                         && db.orders[o].assignee == Some(req.user) then Some(ActiveOrders)
              else if exists u :: u in db.users && u != req.user && Some(db.users[u].email) == req.changes.email then
                Some(EmailConflict)
              else None
  {
    S.LastAdminNeverReturned(OfUser(req), db);
    if req.user in db.users {
      var email := U.Patched(db.users[req.user], req.changes).email;
      if req.changes.email == None || email == db.users[req.user].email {
        assert !EmailTakenByOther(db.users, req.user, email);
      }
    }
  }

  // ---- Accounts

  lemma BootstrapRefused(req: C.AccountRequest, db: Db)
    requires req.Bootstrap?
    ensures Verdict(OfAccount(req), db) ==
            if exists u :: u in db.users && db.users[u].role == Admin then Some(AlreadyBootstrapped)
            else if exists u :: u in db.users && db.users[u].email == req.email then Some(EmailConflict)
            else None
  {
  }

  /** Somebody has the email without being the active user of that role. */
  predicate Occupied(users: map<Uuid, User>, email: string, role: Role) {
    exists u :: u in users && users[u].email == email && (users[u].role != role || !users[u].active)
  }

  lemma SeedRefused(hashes: seq<string>, db: Db)
    ensures Verdict(OfAccount(C.SeedDemo(hashes)), db) ==
            if Occupied(db.users, "admin@gowork.dev", Admin) then Some(DemoConflict)
            else if && (exists u :: u in db.users && db.users[u].role == Admin)
                    && (forall u :: u in db.users ==> db.users[u].email != "admin@gowork.dev") then
              Some(AlreadyBootstrapped)
            else if Occupied(db.users, "manager@gowork.dev", Manager) then Some(DemoConflict)
            else if Occupied(db.users, "technician@gowork.dev", Technician) then Some(DemoConflict)
            else None
  {
    assert C.DemoConflicts(db.users, 0) == Occupied(db.users, "admin@gowork.dev", Admin);
    assert C.DemoConflicts(db.users, 1) == Occupied(db.users, "manager@gowork.dev", Manager);
    assert C.DemoConflicts(db.users, 2) == Occupied(db.users, "technician@gowork.dev", Technician);
    assert C.SeedVerdict(db.users, 3) == None;
    assert C.SeedVerdict(db.users, 2) == if C.DemoConflicts(db.users, 2) then Some(DemoConflict) else None;
    assert C.SeedVerdict(db.users, 1) ==
           if C.DemoConflicts(db.users, 1) then Some(DemoConflict) else C.SeedVerdict(db.users, 2);
  }
}
