/** The user service's transactions, written out as the service runs them. */
module Users {
  import opened Types
  import opened Policy
  import opened Statements
  import opened Requests
  import opened Programs
  import opened Session
  import U = UserRequests
  import UP = UserProgram

  method LockAdministration(q: Tx, actor: Uuid, permission: Permission) returns (e: Option<Error>)
    requires q.Valid() && q.at == Begin(q.req) && q.req.OfUser?
    requires actor == ActorOf(q.req) && permission == PermissionOf(q.req)
    modifies q
    ensures q.Valid()
    ensures q.at == match e case None => Body(q.req) case Some(error) => Refused(error)
  {
    hide Solo, PlaceOf, View, Effect;
    var _ := q.Query(LockUserAdministration);
    e := Recheck(q, actor, permission);
  }

  /** Reads a row back; by then it is certainly there. */
  method ReadBack(q: Tx, u: Uuid) returns (e: Option<Error>)
    requires q.Valid() && q.at == AtReadBack(u)
    modifies q
    ensures q.Valid()
    ensures q.at == match e case None => Succeeded case Some(error) => Refused(error)
  {
    hide Solo, PlaceOf, View, Effect;
    var current := q.Query(GetCurrentUser(u));
    return if current.userRow == None then Some(RowVanished) else None;
  }

  method Create(q: Tx, actor: Uuid, name: string, email: string, hash: string, role: Role)
    returns (e: Option<Error>)
    requires q.Valid() && q.at == Begin(q.req)
    requires q.req == OfUser(U.Create(actor, name, email, hash, role))
    modifies q
    ensures q.Valid()
    ensures q.at == match e case None => Succeeded case Some(error) => Refused(error)
  {
    hide Solo, PlaceOf, View, Effect;
    e := LockAdministration(q, actor, CanCreateUser);
    if e != None {
      return;
    }
    e := Insert(q, actor, name, email, hash, role);
  }

  method Insert(q: Tx, actor: Uuid, name: string, email: string, hash: string, role: Role) returns (e: Option<Error>)
    requires q.Valid() && q.at == InUser(UP.AtInsert)
    requires q.req == OfUser(U.Create(actor, name, email, hash, role))
    modifies q
    ensures q.Valid()
    ensures q.at == match e case None => Succeeded case Some(error) => Refused(error)
  {
    hide Solo, PlaceOf, View, Effect;
    var row := User(name, email, hash, role, true, q.start, q.start);
    var u := q.Query(InsertUser(row));
    if u == Duplicate {
      return Some(EmailConflict);
    }
    WriteAudit(q, U.Creation(Some(actor), UserCreated, u.id, row), Some(u.id));
    e := ReadBack(q, u.id);
  }

  datatype Loaded = Row(was: User, role: Role) | Missing(error: Error)

  /** The target under its lock, with its role. */
  method Load(q: Tx, id: Uuid) returns (l: Loaded)
    requires q.Valid() && q.at == InUser(UP.AtLock) && q.req.OfUser? && q.req.user.Patch? && id == q.req.user.user
    modifies q
    ensures q.Valid()
    ensures match l
            case Missing(error) => q.at == Refused(error)
            case Row(was, role) =>
              if U.Deactivates(was, q.req.user.changes) then q.at == InUser(UP.AtCountAdmins(was, role))
              else q.at == Onward(UP.Decide(q.req.user, was, role), p => InUser(p))
  {
    hide Solo, PlaceOf, View, Effect;
    var u := q.Query(LockUser(id));
    if u.userRow == None {
      return Missing(UserNotFound);
    }
    var current := q.Query(GetCurrentUser(id));
    if current.userRow == None {
      return Missing(RowVanished);
    }
    return Row(u.userRow.value, current.userRow.value.role);
  }

  method Patch(q: Tx, actor: Uuid, id: Uuid, changes: U.UserChanges) returns (e: Option<Error>)
    requires q.Valid() && q.at == Begin(q.req)
    requires q.req == OfUser(U.Patch(actor, id, changes))
    modifies q
    ensures q.Valid()
    ensures q.at == match e case None => Succeeded case Some(error) => Refused(error)
  {
    hide Solo, PlaceOf, View, Effect;
    e := LockAdministration(q, actor, CanUpdateUser);
    if e != None {
      return;
    }
    var l := Load(q, id);
    if l.Missing? {
      return Some(l.error);
    }
    e := Change(q, actor, id, changes, l.was, l.role);
  }

  method Change(q: Tx, actor: Uuid, id: Uuid, changes: U.UserChanges, was: User, role: Role) returns (e: Option<Error>)
    requires q.Valid() && q.req == OfUser(U.Patch(actor, id, changes))
    requires if U.Deactivates(was, changes) then q.at == InUser(UP.AtCountAdmins(was, role))
             else q.at == Onward(UP.Decide(q.req.user, was, role), p => InUser(p))
    modifies q
    ensures q.Valid()
    ensures q.at == match e case None => Succeeded case Some(error) => Refused(error)
  {
    hide Solo, PlaceOf, View, Effect;
    var next := was;
    if changes.name.Some? { next := next.(name := changes.name.value); }
    if changes.email.Some? { next := next.(email := changes.email.value); }
    if changes.hash.Some? { next := next.(hash := changes.hash.value); }
    if changes.active.Some? { next := next.(active := changes.active.value); }
    assert next == U.Patched(was, changes);
    if was.active && !next.active {
      e := Guard(q, actor, id, was, role);
      if e != None {
        return;
      }
    }
    if next.name == was.name && next.email == was.email && next.active == was.active && changes.hash == None {
      return None;
    }
    e := Write(q, actor, id, changes, was, next, role);
  }

  /** What stands in the way of a deactivation, read under both locks. */
  method Guard(q: Tx, actor: Uuid, id: Uuid, was: User, role: Role) returns (e: Option<Error>)
    requires q.Valid() && q.at == InUser(UP.AtCountAdmins(was, role))
    requires q.req.OfUser? && q.req.user.Patch? && actor == q.req.user.actor && id == q.req.user.user
    modifies q
    ensures q.Valid()
    ensures q.at == match e
                    case None => Onward(UP.Decide(q.req.user, was, role), p => InUser(p))
                    case Some(error) => Refused(error)
  {
    hide Solo, PlaceOf, View, Effect;
    var n := q.Query(CountActiveAdmins);
    var busy := q.Query(UserHasActiveOrders(id));
    return GuardDeactivation(actor == id, role, n.n, busy.holds);
  }

  method Write(q: Tx, actor: Uuid, id: Uuid, changes: U.UserChanges, was: User, next: User, role: Role)
    returns (e: Option<Error>)
    requires q.Valid() && q.at == InUser(UP.AtUpdate(was, role))
    requires q.req == OfUser(U.Patch(actor, id, changes)) && next == U.Patched(was, changes)
    modifies q
    ensures q.Valid()
    ensures q.at == match e case None => Succeeded case Some(error) => Refused(error)
  {
    hide Solo, PlaceOf, View, Effect;
    var updated := q.Query(UpdateUser(id, next));
    if updated == Duplicate {
      return Some(EmailConflict);
    }
    if updated.userRow == None {
      return Some(RowVanished);
    }
    WriteAudit(q, U.Update(actor, id, role, was, updated.userRow.value, changes.hash.Some?), Some(id));
    e := ReadBack(q, id);
  }
}
