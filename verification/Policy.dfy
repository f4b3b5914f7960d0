/** Role permissions, resource scope and the order lifecycle. */
module Policy {
  import opened Types

  datatype Error =
    | Inactive | Forbidden
    | OrderNotFound | AssetNotFound | UserNotFound
    | AssetUnavailable | InvalidAssignee | TerminalOrder | InvalidTransition
    | InvalidAssignment | AlreadyAssigned
    | AssetInUse | AssetBusy | CodeConflict
    | EmailConflict | SelfDeactivation | LastAdmin | ActiveOrders
    | AlreadyBootstrapped | DemoConflict
    | RowVanished | Invalid

  /** The role and permission catalogue seeded by the last migration. */
  function Grants(role: Role): set<Permission> {
    match role
    case Admin =>
      {CanCreateUser, CanReadUser, CanUpdateUser, CanCreateAsset, CanReadAsset, CanUpdateAsset,
       CanDeleteAsset, CanCreateOrder, CanReadOrder, CanUpdateOrder, CanAssignOrder,
       CanMoveOrder, CanCancelOrder, CanReadAudit}
    case Manager =>
      {CanReadUser, CanCreateAsset, CanReadAsset, CanUpdateAsset, CanCreateOrder, CanReadOrder,
       CanUpdateOrder, CanAssignOrder, CanMoveOrder, CanCancelOrder, CanReadAudit}
    case Technician =>
      {CanReadAsset, CanReadOrder, CanMoveOrder}
  }

  predicate HasPermission(users: map<Uuid, User>, actor: Uuid, p: Permission) {
    actor in users && users[actor].active && p in Grants(users[actor].role)
  }

  /** `rbac.Check` on one snapshot: nothing when the actor may proceed. */
  function Check(users: map<Uuid, User>, actor: Uuid, p: Permission): (e: Option<Error>)
    ensures e == None <==> HasPermission(users, actor, p)
  {
    if actor !in users || !users[actor].active then Some(Inactive)
    else if p !in Grants(users[actor].role) then Some(Forbidden)
    else None
  }

  predicate AssignedScope(role: Role, actor: Uuid, assignee: Option<Uuid>) {
    match role
    case Admin => true
    case Manager => true
    case Technician => assignee == Some(actor)
  }

  predicate AssignmentFilterAllowed(role: Role, actor: Uuid, filter: Option<Uuid>) {
    if role == Technician then filter == None || filter == Some(actor)
    else true
  }

  function Transition(from: Status, to: Status): Option<Error> {
    if from == Completed || from == Cancelled then Some(TerminalOrder)
    else if (to == Cancelled && (from == Open || from == Assigned || from == InProgress))
      || (from == Assigned && to == InProgress)
      || (from == InProgress && to == Completed) then None
    else Some(InvalidTransition)
  }

  function StatusPermission(to: Status): Permission {
    if to == Cancelled then CanCancelOrder else CanMoveOrder
  }

  function GuardDeactivation(self: bool, role: Role, activeAdmins: int, hasOrders: bool): Option<Error> {
    if self then Some(SelfDeactivation)
    else if role == Admin && activeAdmins <= 1 then Some(LastAdmin)
    else if hasOrders then Some(ActiveOrders)
    else None
  }
}
