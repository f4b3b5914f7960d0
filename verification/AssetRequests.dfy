/** The write requests on assets, each as one atomic step. */
module AssetRequests {
  import opened Types
  import opened Policy
  import opened Statements

  datatype AssetChanges = AssetChanges(name: Option<string>, category: Option<string>, location: Option<string>,
                                       status: Option<AssetStatus>)

  datatype AssetRequest =
    | Create(actor: Uuid, code: string, name: string, category: string, location: string, status: AssetStatus)
    | Patch(actor: Uuid, asset: Uuid, changes: AssetChanges)
    | Delete(actor: Uuid, asset: Uuid)

  function PermissionOf(req: AssetRequest): Permission {
    match req
    case Create(_, _, _, _, _, _) => CanCreateAsset
    case Patch(_, _, _) => CanUpdateAsset
    case Delete(_, _) => CanDeleteAsset
  }

  predicate WellFormed(req: AssetRequest) {
    req.Patch? ==> req.changes != AssetChanges(None, None, None, None)
  }

  function Patched(a: Asset, c: AssetChanges): Asset {
    a.(name := Or(c.name, a.name), category := Or(c.category, a.category),
       location := Or(c.location, a.location), status := Or(c.status, a.status))
  }

  predicate Retires(was: Asset, next: Asset) {
    next.status != was.status && !Usable(next.status)
  }

  /** Why a request of an authorized actor is refused, or `None`. */
  function Verdict(req: AssetRequest, db: Db): Option<Error> {
    match req
    case Create(_, code, _, _, _, _) => if CodeTaken(db.assets, code) then Some(CodeConflict) else None
    case Patch(_, a, c) =>
      if a !in db.assets then Some(AssetNotFound)
      else if Retires(db.assets[a], Patched(db.assets[a], c)) && HasOpenOrders(db.orders, a) then Some(AssetBusy)
      else None
    case Delete(_, a) =>
      if a !in db.assets then Some(AssetNotFound)
      else if HasOrders(db.orders, a) then Some(AssetInUse)
      else None
  }

  function AssetAudit(actor: Uuid, action: Action, id: Uuid, before: Option<Asset>, after: Option<Asset>): Audit {
    Audit(Some(actor), action, AssetEntity, id,
          if before.Some? then Some(AssetSnapshot(id, before.value)) else None,
          if after.Some? then Some(AssetSnapshot(id, after.value)) else None)
  }

  function NewRow(req: AssetRequest, start: Time): Asset
    requires req.Create?
  {
    Asset(req.code, req.name, req.category, req.location, req.status, start, start)
  }

  ghost predicate Added(req: AssetRequest, start: Time, db: Db, db': Db, id: Uuid)
    requires req.Create?
  {
    && !Known(db, id)
    && db' == db.(assets := db.assets[id := NewRow(req, start)],
                  log := db.log + [AssetAudit(req.actor, AssetCreated, id, None, Some(NewRow(req, start)))])
  }

  predicate Changed(req: AssetRequest, db: Db, db': Db)
    requires req.Patch? && req.asset in db.assets
  {
    var was := db.assets[req.asset];
    var next := Patched(was, req.changes);
    if next == was then db' == db
    else
      && req.asset in db'.assets
      && var now := db'.assets[req.asset];
      && UpdatedAsset(was, next, now)
      && db' == db.(assets := db.assets[req.asset := now],
                    log := db.log + [AssetAudit(req.actor, AssetUpdated, req.asset, Some(was), Some(now))])
  }

  predicate Removed(req: AssetRequest, db: Db, db': Db)
    requires req.Delete? && req.asset in db.assets
  {
    db' == db.(assets := db.assets - {req.asset}, gone := db.gone + {req.asset},
               log := db.log + [AssetAudit(req.actor, AssetDeleted, req.asset, Some(db.assets[req.asset]), None)])
  }

  ghost predicate Outcome(req: AssetRequest, start: Time, db: Db, db': Db)
    requires Verdict(req, db) == None
  {
    match req
    case Create(_, _, _, _, _, _) => exists id: Uuid :: Added(req, start, db, db', id)
    case Patch(_, _, _) => Changed(req, db, db')
    case Delete(_, _) => Removed(req, db, db')
  }
}
