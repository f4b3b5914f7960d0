/** The administrator's write requests on users, each as one atomic step. */
module UserRequests {
  import opened Types
  import opened Policy
  import opened Statements

  datatype UserChanges = UserChanges(name: Option<string>, email: Option<string>, hash: Option<string>,
                                     active: Option<bool>)

  datatype UserRequest =
    | Create(actor: Uuid, name: string, email: string, hash: string, role: Role)
    | Patch(actor: Uuid, user: Uuid, changes: UserChanges)

  function PermissionOf(req: UserRequest): Permission {
    match req
    case Create(_, _, _, _, _) => CanCreateUser
    case Patch(_, _, _) => CanUpdateUser
  }

  predicate WellFormed(req: UserRequest) {
    req.Patch? ==> req.changes != UserChanges(None, None, None, None)
  }

  function Patched(u: User, c: UserChanges): User {
    u.(name := Or(c.name, u.name), email := Or(c.email, u.email),
       hash := Or(c.hash, u.hash), active := Or(c.active, u.active))
  }

  predicate Idle(was: User, c: UserChanges) {
    var next := Patched(was, c);
    next.name == was.name && next.email == was.email && next.active == was.active && c.hash == None
  }

  predicate Deactivates(was: User, c: UserChanges) {
    was.active && !Patched(was, c).active
  }

  /** The guard of a patch that deactivates its target. */
  function Guard(db: Db, actor: Uuid, u: Uuid): Option<Error>
    requires u in db.users
  {
    GuardDeactivation(actor == u, db.users[u].role, |ActiveAdmins(db.users)|, HasLiveOrders(db.orders, u))
  }

  /** Why a request of an authorized actor is refused, or `None`. */
  function Verdict(req: UserRequest, db: Db): Option<Error> {
    match req
    case Create(_, _, email, _, _) => if EmailTaken(db.users, email) then Some(EmailConflict) else None
    case Patch(actor, u, c) =>
      if u !in db.users then Some(UserNotFound)
      else if Deactivates(db.users[u], c) && Guard(db, actor, u) != None then Guard(db, actor, u)
      else if Idle(db.users[u], c) then None
      else if EmailTakenByOther(db.users, u, Patched(db.users[u], c).email) then Some(EmailConflict)
      else None
  }

  function NewRow(name: string, email: string, hash: string, role: Role, start: Time): User {
    User(name, email, hash, role, true, start, start)
  }

  function Creation(actor: Option<Uuid>, action: Action, id: Uuid, row: User): Audit {
    Audit(actor, action, UserEntity, id, None,
          Some(UserSnapshot(id, row.name, row.email, row.role, row.active, false)))
  }

  function Update(actor: Uuid, u: Uuid, role: Role, was: User, now: User, passwordChanged: bool): Audit {
    Audit(Some(actor), UserUpdated, UserEntity, u,
          Some(UserSnapshot(u, was.name, was.email, role, was.active, false)),
          Some(UserSnapshot(u, now.name, now.email, role, now.active, passwordChanged)))
  }

  ghost predicate Added(actor: Option<Uuid>, action: Action, row: User, db: Db, db': Db, id: Uuid) {
    && !Known(db, id)
    && db' == db.(users := db.users[id := row], log := db.log + [Creation(actor, action, id, row)])
  }

  predicate Changed(req: UserRequest, db: Db, db': Db)
    requires req.Patch? && req.user in db.users
  {
    var was := db.users[req.user];
    if Idle(was, req.changes) then db' == db
    else
      && req.user in db'.users
      && var now := db'.users[req.user];
      && UpdatedUser(was, Patched(was, req.changes), now)
      && db' == db.(users := db.users[req.user := now],
                    log := db.log + [Update(req.actor, req.user, was.role, was, now, req.changes.hash.Some?)])
  }

  ghost predicate Outcome(req: UserRequest, start: Time, db: Db, db': Db)
    requires Verdict(req, db) == None
  {
    match req
    case Create(actor, name, email, hash, role) =>
      exists id: Uuid :: Added(Some(actor), UserCreated, NewRow(name, email, hash, role, start), db, db', id)
    case Patch(_, _, _) => Changed(req, db, db')
  }
}
