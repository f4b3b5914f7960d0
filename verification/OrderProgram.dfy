/**
 * The work-order transactions after the permission check, statement by statement, and the proof
 * that such a body running alone does exactly what the atomic request says.
 */
module OrderProgram {
  import opened Types
  import opened Policy
  import opened Statements
  import opened Flow
  import opened OrderRequests

  datatype Place =
    | AtShareAsset
    | AtInsert
    | AtLock
    | AtRole(was: Order)
    | AtShareTarget(was: Order)
    | AtReadTarget(was: Order, target: User)
    | AtUpdate(was: Order)

  function Enter(req: OrderRequest): Place {
    if req.Create? then AtShareAsset else AtLock
  }

  function Ask(req: OrderRequest, start: Time, at: Place): Option<Statement> {
    if req.Create? then
      match at
      case AtShareAsset => Some(ShareAsset(req.asset))
      case AtInsert => Some(InsertWorkOrder(Draft(req, start)))
      case _ => None
    else
      match at
      case AtLock => Some(LockWorkOrder(req.order))
      case AtRole(_) => Some(GetCurrentUser(req.actor))
      case AtShareTarget(_) => if req.Assign? then Some(ShareUser(req.target)) else None
      case AtReadTarget(_, _) => if req.Assign? then Some(GetCurrentUser(req.target)) else None
      case AtUpdate(was) => Some(UpdateWorkOrder(req.order, Wanted(req, was)))
      case _ => None
  }

  /** The change callback of `mutate`, up to its first statement. */
  function Change(req: OrderRequest, was: Order): Next<Place> {
    match req
    case Patch(_, _, _) => if Actions(req, was) == [] then Record([], None) else Go(AtUpdate(was))
    case Assign(_, _, target) =>
      if was.status != Open && was.status != Assigned then Refuse(InvalidAssignment)
      else if was.assignee == Some(target) then Refuse(AlreadyAssigned)
      else Go(AtShareTarget(was))
    case Move(_, _, to) =>
      (match Transition(was.status, to)
       case Some(e) => Refuse(e)
       case None => Go(AtUpdate(was)))
    case Create(_, _, _, _, _) => Refuse(RowVanished)
  }

  function AfterRole(req: OrderRequest, was: Order, role: Role): Next<Place> {
    if !AssignedScope(role, req.actor, was.assignee) then Refuse(Forbidden)
    else if Terminal(was.status) then Refuse(TerminalOrder)
    else Change(req, was)
  }

  /** A row the code reads by id and finds missing ends the transaction with the driver's error. */
  function Advance(req: OrderRequest, at: Place, answer: Answer): Next<Place> {
    match at
    case AtShareAsset =>
      if !answer.AssetRow? || answer.assetRow == None then Refuse(AssetNotFound)
      else if !Usable(answer.assetRow.value.status) then Refuse(AssetUnavailable)
      else Go(AtInsert)
    case AtInsert =>
      if answer.InsertedOrder? then Record([Creation(req.actor, answer.id, answer.order)], None)
      else Refuse(RowVanished)
    case AtLock =>
      if !answer.OrderRow? || answer.orderRow == None then Refuse(OrderNotFound)
      else Go(AtRole(answer.orderRow.value))
    case AtRole(was) =>
      if !answer.UserRow? || answer.userRow == None then Refuse(RowVanished)
      else AfterRole(req, was, answer.userRow.value.role)
    case AtShareTarget(was) =>
      if !answer.UserRow? || answer.userRow == None then Refuse(InvalidAssignee)
      else Go(AtReadTarget(was, answer.userRow.value))
    case AtReadTarget(was, target) =>
      if !answer.UserRow? || answer.userRow == None then Refuse(RowVanished)
      else if !target.active || answer.userRow.value.role != Technician then Refuse(InvalidAssignee)
      else Go(AtUpdate(was))
    case AtUpdate(was) =>
      if req.Create? || !answer.OrderRow? || answer.orderRow == None then Refuse(RowVanished)
      else Record(Rows(req.actor, req.order, Actions(req, was), was, answer.orderRow.value), None)
  }

  // ---- Running alone

  ghost predicate Found(req: OrderRequest, db: Db, was: Order) {
    !req.Create? && req.order in db.orders && db.orders[req.order] == was
  }

  ghost predicate Assignable(req: OrderRequest, db: Db, was: Order)
    requires req.actor in db.users
  {
    && Found(req, db, was) && req.Assign? && Reachable(db, req.actor, req.order) == None
    && (was.status == Open || was.status == Assigned) && was.assignee != Some(req.target)
  }

  /** What the body knows of the database `db` at a place; it has written nothing yet. */
  ghost predicate Facts(req: OrderRequest, at: Place, db: Db)
    requires req.actor in db.users
  {
    match at
    case AtShareAsset => req.Create?
    case AtInsert => req.Create? && Verdict(req, db) == None
    case AtLock => !req.Create?
    case AtRole(was) => Found(req, db, was)
    case AtShareTarget(was) => Assignable(req, db, was)
    case AtReadTarget(was, u) => Assignable(req, db, was) && req.target in db.users && db.users[req.target] == u
    case AtUpdate(was) => Found(req, db, was) && Verdict(req, db) == None && Actions(req, was) != []
  }

  ghost predicate NextFacts(req: OrderRequest, start: Time, next: Next<Place>, db: Db, v: Db)
    requires req.actor in db.users
  {
    match next
    case Go(at) => v == db && Facts(req, at, db)
    case Record(rows, back) =>
      && back == None && Verdict(req, db) == None
      && Outcome(req, start, db, v.(log := v.log + rows))
    case Refuse(e) => Verdict(req, db) == Some(e)
  }

  lemma EnterFacts(req: OrderRequest, db: Db)
    requires req.actor in db.users
    ensures Facts(req, Enter(req), db)
  {
  }

  lemma InsertFacts(req: OrderRequest, start: Time, db: Db, answer: Answer)
    requires req.actor in db.users && Facts(req, AtInsert, db)
    requires Allows(InsertWorkOrder(Draft(req, start)), db, answer)
    ensures NextFacts(req, start, Advance(req, AtInsert, answer), db,
                      Effect(InsertWorkOrder(Draft(req, start)), answer, db))
  {
    var v := Effect(InsertWorkOrder(Draft(req, start)), answer, db);
    var row := Creation(req.actor, answer.id, answer.order);
    assert Added(req, start, db, v.(log := v.log + [row]), answer.id, answer.number, answer.year);
  }

  lemma UpdateFacts(req: OrderRequest, start: Time, was: Order, db: Db, answer: Answer)
    requires req.actor in db.users && Facts(req, AtUpdate(was), db)
    requires Allows(UpdateWorkOrder(req.order, Wanted(req, was)), db, answer)
    ensures NextFacts(req, start, Advance(req, AtUpdate(was), answer), db,
                      Effect(UpdateWorkOrder(req.order, Wanted(req, was)), answer, db))
  {
    hide Rows, Verdict;
    var v := Effect(UpdateWorkOrder(req.order, Wanted(req, was)), answer, db);
    var rows := Rows(req.actor, req.order, Actions(req, was), was, answer.orderRow.value);
    assert Changed(req, db, v.(log := v.log + rows));
  }

  lemma StepFacts(req: OrderRequest, start: Time, at: Place, s: Statement, db: Db, answer: Answer)
    requires req.actor in db.users && Facts(req, at, db)
    requires Ask(req, start, at) == Some(s) && Allows(s, db, answer)
    ensures NextFacts(req, start, Advance(req, at, answer), db, Effect(s, answer, db))
  {
    match at
    case AtInsert => InsertFacts(req, start, db, answer);
    case AtUpdate(was) => UpdateFacts(req, start, was, db, answer);
    case _ =>
  }
}
