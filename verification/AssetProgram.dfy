/** The asset transactions after the permission check, and what such a body does running alone. */
module AssetProgram {
  import opened Types
  import opened Policy
  import opened Statements
  import opened Flow
  import opened AssetRequests

  datatype Place =
    | AtInsert
    | AtLock
    | AtOpenOrders(was: Asset)
    | AtUpdate(was: Asset)
    | AtAnyOrders(was: Asset)
    | AtDelete(was: Asset)

  function Enter(req: AssetRequest): Place {
    if req.Create? then AtInsert else AtLock
  }

  function Ask(req: AssetRequest, start: Time, at: Place): Option<Statement> {
    if req.Create? then
      if at.AtInsert? then Some(InsertAsset(NewRow(req, start))) else None
    else
      match at
      case AtInsert => None
      case AtLock => Some(LockAsset(req.asset))
      case AtOpenOrders(_) => Some(AssetHasOpenOrders(req.asset))
      case AtUpdate(was) => if req.Patch? then Some(UpdateAsset(req.asset, Patched(was, req.changes))) else None
      case AtAnyOrders(_) => Some(AssetHasOrders(req.asset))
      case AtDelete(was) => Some(DeleteAsset(req.asset, was.code))
  }

  function AfterLock(req: AssetRequest, was: Asset): Next<Place> {
    if req.Patch? then
      var next := Patched(was, req.changes);
      if next == was then Record([], None)
      else if Retires(was, next) then Go(AtOpenOrders(was))
      else Go(AtUpdate(was))
    else Go(AtAnyOrders(was))
  }

  function Advance(req: AssetRequest, start: Time, at: Place, answer: Answer): Next<Place> {
    match at
    case AtInsert =>
      if answer == Duplicate then Refuse(CodeConflict)
      else if req.Create? && answer.Inserted? then
        Record([AssetAudit(req.actor, AssetCreated, answer.id, None, Some(NewRow(req, start)))], None)
      else Refuse(RowVanished)
    case AtLock =>
      if !answer.AssetRow? || answer.assetRow == None then Refuse(AssetNotFound)
      else AfterLock(req, answer.assetRow.value)
    case AtOpenOrders(was) => if answer == Truth(false) then Go(AtUpdate(was)) else Refuse(AssetBusy)
    case AtUpdate(was) =>
      if req.Create? || !answer.AssetRow? || answer.assetRow == None then Refuse(RowVanished)
      else Record([AssetAudit(req.actor, AssetUpdated, req.asset, Some(was), answer.assetRow)], None)
    case AtAnyOrders(was) => if answer == Truth(false) then Go(AtDelete(was)) else Refuse(AssetInUse)
    case AtDelete(was) =>
      if req.Create? then Refuse(RowVanished)
      else Record([AssetAudit(req.actor, AssetDeleted, req.asset, Some(was), None)], None)
  }

  // ---- Running alone

  ghost predicate Found(req: AssetRequest, db: Db, was: Asset) {
    !req.Create? && req.asset in db.assets && db.assets[req.asset] == was
  }

  ghost predicate Facts(req: AssetRequest, at: Place, db: Db) {
    match at
    case AtInsert => req.Create?
    case AtLock => !req.Create?
    case AtOpenOrders(was) => Found(req, db, was) && req.Patch? && Retires(was, Patched(was, req.changes))
    case AtUpdate(was) =>
      Found(req, db, was) && req.Patch? && Verdict(req, db) == None && Patched(was, req.changes) != was
    case AtAnyOrders(was) => Found(req, db, was) && req.Delete?
    case AtDelete(was) => Found(req, db, was) && req.Delete? && Verdict(req, db) == None
  }

  ghost predicate NextFacts(req: AssetRequest, start: Time, next: Next<Place>, db: Db, v: Db) {
    match next
    case Go(at) => v == db && Facts(req, at, db)
    case Record(rows, back) =>
      && back == None && Verdict(req, db) == None
      && Outcome(req, start, db, v.(log := v.log + rows))
    case Refuse(e) => Verdict(req, db) == Some(e)
  }

  lemma StepFacts(req: AssetRequest, start: Time, at: Place, s: Statement, db: Db, answer: Answer)
    requires Facts(req, at, db)
    requires Ask(req, start, at) == Some(s) && Allows(s, db, answer)
    ensures NextFacts(req, start, Advance(req, start, at, answer), db, Effect(s, answer, db))
  {
    if at.AtInsert? && answer.Inserted? {
      var v := Effect(s, answer, db);
      var row := AssetAudit(req.actor, AssetCreated, answer.id, None, Some(NewRow(req, start)));
      assert Added(req, start, db, v.(log := v.log + [row]), answer.id);
    }
  }
}
