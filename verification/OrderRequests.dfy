/** The write requests on work orders, each as one atomic step. */
module OrderRequests {
  import opened Types
  import opened Policy
  import opened Statements

  datatype OrderChanges = OrderChanges(title: Option<string>, description: Option<string>, priority: Option<Priority>)

  datatype OrderRequest =
    | Create(actor: Uuid, asset: Uuid, title: string, description: string, priority: Priority)
    | Patch(actor: Uuid, order: Uuid, changes: OrderChanges)
    | Assign(actor: Uuid, order: Uuid, target: Uuid)
    | Move(actor: Uuid, order: Uuid, to: Status)

  function PermissionOf(req: OrderRequest): Permission {
    match req
    case Create(_, _, _, _, _) => CanCreateOrder
    case Patch(_, _, _) => CanUpdateOrder
    case Assign(_, _, _) => CanAssignOrder
    case Move(_, _, to) => StatusPermission(to)
  }

  predicate WellFormed(req: OrderRequest) {
    && (req.Patch? ==> req.changes != OrderChanges(None, None, None))
    && (req.Move? ==> req.to == InProgress || req.to == Completed || req.to == Cancelled)
  }

  function Patched(w: Order, c: OrderChanges): Order {
    w.(title := Or(c.title, w.title),
       description := Or(c.description, w.description),
       priority := Or(c.priority, w.priority))
  }

  /** The row that a change of an order asks for. */
  function Wanted(req: OrderRequest, was: Order): Order
    requires !req.Create?
  {
    match req
    case Patch(_, _, c) => Patched(was, c)
    case Assign(_, _, target) => was.(status := Assigned, assignee := Some(target))
    case Move(_, _, to) => was.(status := to)
  }

  /** The audit actions a change announces; none for an idle patch. */
  function Actions(req: OrderRequest, was: Order): seq<Action>
    requires !req.Create?
  {
    match req
    case Patch(_, _, c) => if Patched(was, c) == was then [] else [OrderUpdated]
    case Assign(_, _, _) => if was.status == Open then [OrderAssigned, OrderStatusChanged] else [OrderAssigned]
    case Move(_, _, _) => [OrderStatusChanged]
  }

  function AssignVerdict(db: Db, was: Order, target: Uuid): Option<Error> {
    if was.status != Open && was.status != Assigned then Some(InvalidAssignment)
    else if was.assignee == Some(target) then Some(AlreadyAssigned)
    else if target !in db.users || !db.users[target].active || db.users[target].role != Technician then
      Some(InvalidAssignee)
    else None
  }

  /** The order is found, in the actor's scope and not terminal. */
  function Reachable(db: Db, actor: Uuid, o: Uuid): Option<Error>
    requires actor in db.users
  {
    if o !in db.orders then Some(OrderNotFound)
    else if !AssignedScope(db.users[actor].role, actor, db.orders[o].assignee) then Some(Forbidden)
    else if Terminal(db.orders[o].status) then Some(TerminalOrder)
    else None
  }

  /** Why a request of an authorized actor is refused, or `None`. */
  function Verdict(req: OrderRequest, db: Db): Option<Error>
    requires req.actor in db.users
  {
    if req.Create? then
      if req.asset !in db.assets then Some(AssetNotFound)
      else if !Usable(db.assets[req.asset].status) then Some(AssetUnavailable)
      else None
    else if Reachable(db, req.actor, req.order) != None then Reachable(db, req.actor, req.order)
    else
      match req
      case Patch(_, _, _) => None
      case Assign(_, o, target) => AssignVerdict(db, db.orders[o], target)
      case Move(_, o, to) => Transition(db.orders[o].status, to)
  }

  function Row(actor: Uuid, o: Uuid, action: Action, was: Order, now: Order): Audit {
    Audit(Some(actor), action, OrderEntity, o, Some(OrderSnapshot(o, was)), Some(OrderSnapshot(o, now)))
  }

  /** One audit row for each announced action, all with the same two snapshots. */
  function Rows(actor: Uuid, o: Uuid, actions: seq<Action>, was: Order, now: Order): seq<Audit> {
    if actions == [] then []
    else [Row(actor, o, actions[0], was, now)] + Rows(actor, o, actions[1..], was, now)
  }

  /** The rows of a change, spelled out. */
  lemma ChangeRows(req: OrderRequest, was: Order, now: Order)
    requires !req.Create?
    ensures Rows(req.actor, req.order, Actions(req, was), was, now) ==
            if Actions(req, was) == [] then []
            else if req.Assign? && was.status == Open then
              [Row(req.actor, req.order, OrderAssigned, was, now),
               Row(req.actor, req.order, OrderStatusChanged, was, now)]
            else [Row(req.actor, req.order, Actions(req, was)[0], was, now)]
  {
    var actions := Actions(req, was);
    if |actions| == 1 {
      assert actions[1..] == [];
    } else if actions != [] {
      assert actions[1..] == [OrderStatusChanged];
      assert [OrderStatusChanged][1..] == [];
      assert Rows(req.actor, req.order, [OrderStatusChanged], was, now)
          == [Row(req.actor, req.order, OrderStatusChanged, was, now)] + Rows(req.actor, req.order, [], was, now);
    }
  }

  lemma {:induction false} RowsLength(actor: Uuid, o: Uuid, actions: seq<Action>, was: Order, now: Order)
    ensures |Rows(actor, o, actions, was, now)| == |actions|
  {
    if actions != [] { RowsLength(actor, o, actions[1..], was, now); }
  }

  /** An existing order after a change that the verdict lets through. */
  predicate Changed(req: OrderRequest, db: Db, db': Db)
    requires !req.Create? && req.order in db.orders
  {
    var was := db.orders[req.order];
    if Actions(req, was) == [] then db' == db
    else
      && req.order in db'.orders
      && var now := db'.orders[req.order];
      && UpdatedOrder(was, Wanted(req, was), now)
      && db' == db.(orders := db.orders[req.order := now],
                    log := db.log + Rows(req.actor, req.order, Actions(req, was), was, now))
  }

  /** A new order before it is numbered. */
  function Draft(req: OrderRequest, start: Time): Order
    requires req.Create?
  {
    Order("", req.asset, req.title, req.description, req.priority, Open, req.actor, None, start, start, None)
  }

  function Creation(actor: Uuid, id: Uuid, row: Order): Audit {
    Audit(Some(actor), OrderCreated, OrderEntity, id, None, Some(OrderSnapshot(id, row)))
  }

  ghost predicate Added(req: OrderRequest, start: Time, db: Db, db': Db, id: Uuid, n: nat, year: nat)
    requires req.Create?
  {
    && !Known(db, id) && NumberFree(db.orders, n)
    && id in db'.orders
    && NumberedOrder(Draft(req, start), n, year, db'.orders[id])
    && db' == db.(orders := db.orders[id := db'.orders[id]],
                  log := db.log + [Creation(req.actor, id, db'.orders[id])])
  }

  ghost predicate Outcome(req: OrderRequest, start: Time, db: Db, db': Db)
    requires req.actor in db.users && Verdict(req, db) == None
  {
    if req.Create? then exists id: Uuid, n: nat, year: nat :: Added(req, start, db, db', id, n, year)
    else Changed(req, db, db')
  }
}
