/** The user transactions after the permission check, and what such a body does running alone. */
module UserProgram {
  import opened Types
  import opened Policy
  import opened Statements
  import opened Flow
  import opened UserRequests

  datatype Place =
    | AtInsert
    | AtLock
    | AtRead(was: User)
    | AtCountAdmins(was: User, role: Role)
    | AtActiveOrders(was: User, role: Role, admins: int)
    | AtUpdate(was: User, role: Role)

  function Enter(req: UserRequest): Place {
    if req.Create? then AtInsert else AtLock
  }

  function Ask(req: UserRequest, start: Time, at: Place): Option<Statement> {
    if req.Create? then
      if at.AtInsert? then Some(InsertUser(NewRow(req.name, req.email, req.hash, req.role, start))) else None
    else
      match at
      case AtInsert => None
      case AtLock => Some(LockUser(req.user))
      case AtRead(_) => Some(GetCurrentUser(req.user))
      case AtCountAdmins(_, _) => Some(CountActiveAdmins)
      case AtActiveOrders(_, _, _) => Some(UserHasActiveOrders(req.user))
      case AtUpdate(was, _) => Some(UpdateUser(req.user, Patched(was, req.changes)))
  }

  /** The end of a patch once deactivation is out of the way. */
  function Decide(req: UserRequest, was: User, role: Role): Next<Place> {
    if req.Create? then Refuse(RowVanished)
    else if Idle(was, req.changes) then Record([], None)
    else Go(AtUpdate(was, role))
  }

  function Advance(req: UserRequest, start: Time, at: Place, answer: Answer): Next<Place> {
    match at
    case AtInsert =>
      if answer == Duplicate then Refuse(EmailConflict)
      else if req.Create? && answer.Inserted? then
        Record([Creation(Some(req.actor), UserCreated, answer.id,
                         NewRow(req.name, req.email, req.hash, req.role, start))], Some(answer.id))
      else Refuse(RowVanished)
    case AtLock =>
      if !answer.UserRow? || answer.userRow == None then Refuse(UserNotFound)
      else Go(AtRead(answer.userRow.value))
    case AtRead(was) =>
      if req.Create? || !answer.UserRow? || answer.userRow == None then Refuse(RowVanished)
      else if Deactivates(was, req.changes) then Go(AtCountAdmins(was, answer.userRow.value.role))
      else Decide(req, was, answer.userRow.value.role)
    case AtCountAdmins(was, role) =>
      if answer.Count? then Go(AtActiveOrders(was, role, answer.n)) else Refuse(RowVanished)
    case AtActiveOrders(was, role, admins) =>
      if req.Create? || !answer.Truth? then Refuse(RowVanished)
      else
        (match GuardDeactivation(req.actor == req.user, role, admins, answer.holds)
         case Some(e) => Refuse(e)
         case None => Decide(req, was, role))
    case AtUpdate(was, role) =>
      if answer == Duplicate then Refuse(EmailConflict)
      else if req.Create? || !answer.UserRow? || answer.userRow == None then Refuse(RowVanished)
      else
        Record([Update(req.actor, req.user, role, was, answer.userRow.value, req.changes.hash.Some?)],
               Some(req.user))
  }

  // ---- Running alone

  ghost predicate Found(req: UserRequest, db: Db, was: User) {
    req.Patch? && req.user in db.users && db.users[req.user] == was
  }

  ghost predicate Facts(req: UserRequest, at: Place, db: Db) {
    match at
    case AtInsert => req.Create?
    case AtLock => req.Patch?
    case AtRead(was) => Found(req, db, was)
    case AtCountAdmins(was, role) => Found(req, db, was) && role == was.role && Deactivates(was, req.changes)
    case AtActiveOrders(was, role, admins) =>
      && Found(req, db, was) && role == was.role && Deactivates(was, req.changes)
      && admins == |ActiveAdmins(db.users)|
    case AtUpdate(was, role) =>
      && Found(req, db, was) && role == was.role && !Idle(was, req.changes)
      && (Deactivates(was, req.changes) ==> Guard(db, req.actor, req.user) == None)
  }

  ghost predicate NextFacts(req: UserRequest, start: Time, next: Next<Place>, db: Db, v: Db) {
    match next
    case Go(at) => v == db && Facts(req, at, db)
    case Record(rows, back) =>
      && (back.Some? ==> back.value in v.users)
      && Verdict(req, db) == None
      && Outcome(req, start, db, v.(log := v.log + rows))
    case Refuse(e) => Verdict(req, db) == Some(e)
  }

  lemma StepFacts(req: UserRequest, start: Time, at: Place, s: Statement, db: Db, answer: Answer)
    requires Facts(req, at, db)
    requires Ask(req, start, at) == Some(s) && Allows(s, db, answer)
    ensures NextFacts(req, start, Advance(req, start, at, answer), db, Effect(s, answer, db))
  {
    if at.AtInsert? && answer.Inserted? {
      var user := NewRow(req.name, req.email, req.hash, req.role, start);
      var v := Effect(s, answer, db);
      var row := Creation(Some(req.actor), UserCreated, answer.id, user);
      assert Added(Some(req.actor), UserCreated, user, db, v.(log := v.log + [row]), answer.id);
    }
  }
}
