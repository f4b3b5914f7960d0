/** The asset service's transactions, written out as the service runs them. */
module Assets {
  import opened Types
  import opened Policy
  import opened Statements
  import opened Requests
  import opened Programs
  import opened Session
  import A = AssetRequests
  import AP = AssetProgram

  /** Locks the actor's row, without looking whether it is there, and checks the permission. */
  method LockActor(q: Tx, actor: Uuid, permission: Permission) returns (e: Option<Error>)
    requires q.Valid() && q.at == Begin(q.req) && q.req.OfAsset?
    requires actor == ActorOf(q.req) && permission == PermissionOf(q.req)
    modifies q
    ensures q.Valid()
    ensures q.at == match e case None => Body(q.req) case Some(error) => Refused(error)
  {
    hide Solo, PlaceOf, View, Effect;
    var _ := q.Query(PrelockUser(actor));
    e := Recheck(q, actor, permission);
  }

  method Create(q: Tx, actor: Uuid, code: string, name: string, category: string, location: string,
                status: AssetStatus)
    returns (e: Option<Error>)
    requires q.Valid() && q.at == Begin(q.req)
    requires q.req == OfAsset(A.Create(actor, code, name, category, location, status))
    modifies q
    ensures q.Valid()
    ensures q.at == match e case None => Succeeded case Some(error) => Refused(error)
  {
    hide Solo, PlaceOf, View, Effect;
    e := LockActor(q, actor, CanCreateAsset);
    if e != None {
      return;
    }
    var row := Asset(code, name, category, location, status, q.start, q.start);
    var a := q.Query(InsertAsset(row));
    if a == Duplicate {
      return Some(CodeConflict);
    }
    WriteAudit(q, A.AssetAudit(actor, AssetCreated, a.id, None, Some(row)), None);
  }

  method Patch(q: Tx, actor: Uuid, id: Uuid, changes: A.AssetChanges) returns (e: Option<Error>)
    requires q.Valid() && q.at == Begin(q.req)
    requires q.req == OfAsset(A.Patch(actor, id, changes))
    modifies q
    ensures q.Valid()
    ensures q.at == match e case None => Succeeded case Some(error) => Refused(error)
  {
    hide Solo, PlaceOf, View, Effect;
    e := LockActor(q, actor, CanUpdateAsset);
    if e != None {
      return;
    }
    var a := q.Query(LockAsset(id));
    if a.assetRow == None {
      return Some(AssetNotFound);
    }
    var was := a.assetRow.value;
    var next := was;
    if changes.name.Some? { next := next.(name := changes.name.value); }
    if changes.category.Some? { next := next.(category := changes.category.value); }
    if changes.location.Some? { next := next.(location := changes.location.value); }
    if changes.status.Some? { next := next.(status := changes.status.value); }
    assert next == A.Patched(was, changes);
    if next == was {
      return None;
    }
    e := Write(q, actor, id, changes, was, next);
  }

  /** An asset with open orders cannot be retired. */
  method Write(q: Tx, actor: Uuid, id: Uuid, changes: A.AssetChanges, was: Asset, next: Asset)
    returns (e: Option<Error>)
    requires q.Valid() && q.req == OfAsset(A.Patch(actor, id, changes))
    requires next == A.Patched(was, changes) && next != was
    requires q.at == InAsset(if A.Retires(was, next) then AP.AtOpenOrders(was) else AP.AtUpdate(was))
    modifies q
    ensures q.Valid()
    ensures q.at == match e case None => Succeeded case Some(error) => Refused(error)
  {
    hide Solo, PlaceOf, View, Effect;
    if next.status != was.status && (next.status == InactiveAsset || next.status == RetiredAsset) {
      var has := q.Query(AssetHasOpenOrders(id));
      if has.holds {
        return Some(AssetBusy);
      }
    }
    e := Update(q, actor, id, changes, was, next);
  }

  method Update(q: Tx, actor: Uuid, id: Uuid, changes: A.AssetChanges, was: Asset, next: Asset)
    returns (e: Option<Error>)
    requires q.Valid() && q.req == OfAsset(A.Patch(actor, id, changes))
    requires next == A.Patched(was, changes) && q.at == InAsset(AP.AtUpdate(was))
    modifies q
    ensures q.Valid()
    ensures q.at == match e case None => Succeeded case Some(error) => Refused(error)
  {
    hide Solo, PlaceOf, View, Effect;
    var updated := q.Query(UpdateAsset(id, next));
    if updated.assetRow == None {
      return Some(RowVanished);
    }
    WriteAudit(q, A.AssetAudit(actor, AssetUpdated, id, Some(was), updated.assetRow), None);
    return None;
  }

  method Delete(q: Tx, actor: Uuid, id: Uuid) returns (e: Option<Error>)
    requires q.Valid() && q.at == Begin(q.req)
    requires q.req == OfAsset(A.Delete(actor, id))
    modifies q
    ensures q.Valid()
    ensures q.at == match e case None => Succeeded case Some(error) => Refused(error)
  {
    hide Solo, PlaceOf, View, Effect;
    e := LockActor(q, actor, CanDeleteAsset);
    if e != None {
      return;
    }
    var a := q.Query(LockAsset(id));
    if a.assetRow == None {
      return Some(AssetNotFound);
    }
    e := Remove(q, actor, id, a.assetRow.value);
  }

  method Remove(q: Tx, actor: Uuid, id: Uuid, was: Asset) returns (e: Option<Error>)
    requires q.Valid() && q.req == OfAsset(A.Delete(actor, id)) && q.at == InAsset(AP.AtAnyOrders(was))
    modifies q
    ensures q.Valid()
    ensures q.at == match e case None => Succeeded case Some(error) => Refused(error)
  {
    hide Solo, PlaceOf, View, Effect;
    var used := q.Query(AssetHasOrders(id));
    if used.holds {
      return Some(AssetInUse);
    }
    var _ := q.Query(DeleteAsset(id, was.code));
    WriteAudit(q, A.AssetAudit(actor, AssetDeleted, id, Some(was), None), None);
    return None;
  }
}
