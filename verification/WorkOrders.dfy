/**
 * The work-order service: its transactions written out as the service runs them, and proved to be
 * the program that the system interleaves and the atomic request that the program implements.
 */
module WorkOrders {
  import opened Types
  import opened Policy
  import opened Statements
  import opened Requests
  import opened Programs
  import opened Session
  import O = OrderRequests
  import OP = OrderProgram

  /** One audit row for each action. */
  method AuditAll(q: Tx, actor: Uuid, id: Uuid, actions: seq<Action>, was: Order, now: Order)
    requires q.Valid() && q.at == Ending(O.Rows(actor, id, actions, was, now), None)
    modifies q
    ensures q.Valid() && q.at == Succeeded
  {
    hide Solo, PlaceOf, View, Effect;
    var i := 0;
    while i < |actions|
      invariant 0 <= i <= |actions| && q.Valid()
      invariant q.at == Ending(O.Rows(actor, id, actions[i..], was, now), None)
    {
      var rest := actions[i..];
      assert rest[0] == actions[i] && rest[1..] == actions[i + 1..];
      var _ := q.Query(InsertAudit(O.Row(actor, id, actions[i], was, now)));
      i := i + 1;
    }
  }

  method Create(q: Tx, actor: Uuid, asset: Uuid, title: string, description: string, priority: Priority)
    returns (e: Option<Error>)
    requires q.Valid() && q.at == AtShareActor
    requires q.req == OfOrder(O.Create(actor, asset, title, description, priority))
    modifies q
    ensures q.Valid()
    ensures q.at == match e case None => Succeeded case Some(error) => Refused(error)
  {
    hide Solo, PlaceOf, View, Effect;
    var u := q.Query(ShareUser(actor));
    if u.userRow == None {
      return Some(Inactive);
    }
    e := Recheck(q, actor, CanCreateOrder);
    if e != None {
      return;
    }
    e := Insert(q, actor, asset, title, description, priority);
  }

  method Insert(q: Tx, actor: Uuid, asset: Uuid, title: string, description: string, priority: Priority)
    returns (e: Option<Error>)
    requires q.Valid() && q.at == InOrder(OP.AtShareAsset)
    requires q.req == OfOrder(O.Create(actor, asset, title, description, priority))
    modifies q
    ensures q.Valid()
    ensures q.at == match e case None => Succeeded case Some(error) => Refused(error)
  {
    hide Solo, PlaceOf, View, Effect;
    var a := q.Query(ShareAsset(asset));
    if a.assetRow == None {
      return Some(AssetNotFound);
    }
    if a.assetRow.value.status != ActiveAsset && a.assetRow.value.status != MaintenanceAsset {
      return Some(AssetUnavailable);
    }
    e := Enter(q, actor, asset, title, description, priority);
  }

  method Enter(q: Tx, actor: Uuid, asset: Uuid, title: string, description: string, priority: Priority)
    returns (e: Option<Error>)
    requires q.Valid() && q.at == InOrder(OP.AtInsert)
    requires q.req == OfOrder(O.Create(actor, asset, title, description, priority))
    modifies q
    ensures q.Valid()
    ensures q.at == match e case None => Succeeded case Some(error) => Refused(error)
  {
    hide Solo, PlaceOf, View, Effect, NumberFree, NumberedOrder, Known;
    var w := q.Query(InsertWorkOrder(Order("", asset, title, description, priority, Open, actor, None,
                                           q.start, q.start, None)));
    var row := O.Creation(actor, w.id, w.order);
    assert q.at == AtAudit([row], None);
    WriteAudit(q, row, None);
    return None;
  }

  /** Locks the users in ascending order of their ids, whether or not they exist. */
  method LockUsers(q: Tx, actor: Uuid, target: Option<Uuid>)
    requires q.Valid() && q.at == Begin(q.req) && q.req.OfOrder? && !q.req.order.Create?
    requires actor == q.req.order.actor
    requires target == if q.req.order.Assign? then Some(q.req.order.target) else None
    modifies q
    ensures q.Valid() && q.at == AtCheckUser
  {
    hide Solo, PlaceOf, View, Effect;
    var ids := [actor] + if target.Some? then [target.value] else [];
    if |ids| == 2 && ids[1] < ids[0] {
      ids := [ids[1], ids[0]];
    }
    var i := 0;
    while i < |ids|
      invariant i <= |ids| && q.Valid()
      invariant q.at == if i < |ids| then AtPrelock(ids[i], ids[i + 1..]) else AtCheckUser
    {
      var _ := q.Query(PrelockUser(ids[i]));
      i := i + 1;
    }
  }

  datatype Change = Changed(next: Order, actions: seq<Action>) | Failed(error: Error)

  /** The place after a change callback, and what the callback asks for. */
  ghost predicate Decided(req: O.OrderRequest, was: Order, c: Change, at: Place)
    requires !req.Create?
  {
    match c
    case Failed(error) => at == Refused(error)
    case Changed(next, actions) =>
      && actions == O.Actions(req, was)
      && if actions == [] then at == Succeeded
         else at == InOrder(OP.AtUpdate(was)) && next == O.Wanted(req, was)
  }

  method DecidePatch(q: Tx, was: Order, changes: O.OrderChanges) returns (c: Change)
    requires q.Valid() && q.req.OfOrder? && q.req.order.Patch? && changes == q.req.order.changes
    requires q.at == Onward(OP.Change(q.req.order, was), p => InOrder(p))
    ensures Decided(q.req.order, was, c, q.at)
  {
    hide Solo, PlaceOf, View, Effect;
    var next := was;
    if changes.title.Some? { next := next.(title := changes.title.value); }
    if changes.description.Some? { next := next.(description := changes.description.value); }
    if changes.priority.Some? { next := next.(priority := changes.priority.value); }
    assert next == O.Patched(was, changes);
    if next == was {
      return Changed(next, []);
    }
    return Changed(next, [OrderUpdated]);
  }

  method DecideAssign(q: Tx, was: Order, target: Uuid) returns (c: Change)
    requires q.Valid() && q.req.OfOrder? && q.req.order.Assign? && target == q.req.order.target
    requires q.at == Onward(OP.Change(q.req.order, was), p => InOrder(p))
    modifies q
    ensures q.Valid() && Decided(q.req.order, was, c, q.at)
  {
    hide Solo, PlaceOf, View, Effect;
    if was.status != Open && was.status != Assigned {
      return Failed(InvalidAssignment);
    }
    if was.assignee == Some(target) {
      return Failed(AlreadyAssigned);
    }
    c := Take(q, was, target);
  }

  /** The order goes to a technician who is active under the lock just taken. */
  method Take(q: Tx, was: Order, target: Uuid) returns (c: Change)
    requires q.Valid() && q.req.OfOrder? && q.req.order.Assign? && target == q.req.order.target
    requires q.at == InOrder(OP.AtShareTarget(was))
    modifies q
    ensures q.Valid() && Decided(q.req.order, was, c, q.at)
  {
    hide Solo, PlaceOf, View, Effect;
    var u := q.Query(ShareUser(target));
    if u.userRow == None {
      return Failed(InvalidAssignee);
    }
    var current := q.Query(GetCurrentUser(target));
    if current.userRow == None {
      return Failed(RowVanished);
    }
    if !u.userRow.value.active || current.userRow.value.role != Technician {
      return Failed(InvalidAssignee);
    }
    var actions := [OrderAssigned];
    if was.status == Open {
      actions := actions + [OrderStatusChanged];
    }
    return Changed(was.(status := Assigned, assignee := Some(target)), actions);
  }

  method DecideMove(q: Tx, was: Order, to: Status) returns (c: Change)
    requires q.Valid() && q.req.OfOrder? && q.req.order.Move? && to == q.req.order.to
    requires q.at == Onward(OP.Change(q.req.order, was), p => InOrder(p))
    ensures Decided(q.req.order, was, c, q.at)
  {
    hide Solo, PlaceOf, View, Effect;
    var e := Transition(was.status, to);
    if e.Some? {
      return Failed(e.value);
    }
    return Changed(was.(status := to), [OrderStatusChanged]);
  }

  /** The change callback of the request. */
  method Decide(q: Tx, was: Order) returns (c: Change)
    requires q.Valid() && q.req.OfOrder? && !q.req.order.Create?
    requires q.at == Onward(OP.Change(q.req.order, was), p => InOrder(p))
    modifies q
    ensures q.Valid() && Decided(q.req.order, was, c, q.at)
  {
    hide Solo, PlaceOf, View, Effect;
    match q.req.order
    case Patch(_, _, changes) => c := DecidePatch(q, was, changes);
    case Assign(_, _, target) => c := DecideAssign(q, was, target);
    case Move(_, _, to) => c := DecideMove(q, was, to);
  }

  datatype Loaded = Row(order: Order) | Missing(error: Error)

  /** The order under its lock, if the actor may see it and it can still change. */
  method Load(q: Tx, actor: Uuid, id: Uuid) returns (l: Loaded)
    requires q.Valid() && q.at == InOrder(OP.AtLock) && q.req.OfOrder? && !q.req.order.Create?
    requires actor == q.req.order.actor && id == q.req.order.order
    modifies q
    ensures q.Valid()
    ensures q.at == match l
                    case Row(was) => Onward(OP.Change(q.req.order, was), p => InOrder(p))
                    case Missing(error) => Refused(error)
  {
    hide Solo, PlaceOf, View, Effect;
    var w := q.Query(LockWorkOrder(id));
    if w.orderRow == None {
      return Missing(OrderNotFound);
    }
    var was := w.orderRow.value;
    var u := q.Query(GetCurrentUser(actor));
    if u.userRow == None {
      return Missing(RowVanished);
    }
    if !AssignedScope(u.userRow.value.role, actor, was.assignee) {
      return Missing(Forbidden);
    }
    if was.status == Completed || was.status == Cancelled {
      return Missing(TerminalOrder);
    }
    return Row(was);
  }

  /** Every change of an existing order goes through here. */
  method Mutate(q: Tx, actor: Uuid, id: Uuid, permission: Permission, target: Option<Uuid>)
    returns (e: Option<Error>)
    requires q.Valid() && q.at == Begin(q.req) && q.req.OfOrder? && !q.req.order.Create?
    requires actor == q.req.order.actor && id == q.req.order.order && permission == PermissionOf(q.req)
    requires target == if q.req.order.Assign? then Some(q.req.order.target) else None
    modifies q
    ensures q.Valid()
    ensures q.at == match e case None => Succeeded case Some(error) => Refused(error)
  {
    hide Solo, PlaceOf, View, Effect;
    LockUsers(q, actor, target);
    e := Recheck(q, actor, permission);
    if e != None {
      return;
    }
    var was := Load(q, actor, id);
    if was.Missing? {
      return Some(was.error);
    }
    var c := Decide(q, was.order);
    if c.Failed? {
      return Some(c.error);
    }
    if c.actions != [] {
      e := Write(q, actor, id, was.order, c.next, c.actions);
    }
  }

  method Write(q: Tx, actor: Uuid, id: Uuid, was: Order, next: Order, actions: seq<Action>)
    returns (e: Option<Error>)
    requires q.Valid() && q.at == InOrder(OP.AtUpdate(was)) && q.req.OfOrder? && !q.req.order.Create?
    requires actor == q.req.order.actor && id == q.req.order.order
    requires next == O.Wanted(q.req.order, was) && actions == O.Actions(q.req.order, was)
    modifies q
    ensures q.Valid()
    ensures q.at == match e case None => Succeeded case Some(error) => Refused(error)
  {
    hide Solo, PlaceOf, View, Effect;
    var updated := q.Query(UpdateWorkOrder(id, next));
    if updated.orderRow == None {
      return Some(RowVanished);
    }
    AuditAll(q, actor, id, actions, was, updated.orderRow.value);
    return None;
  }
}
