/** The rows of the business tables, the audit log and the committed database. */
module Types {

  datatype Option<+T> = None | Some(value: T)

  function Or<T>(o: Option<T>, default: T): T {
    match o
    case Some(v) => v
    case None => default
  }

  /** UUIDs are compared by their text, which is the numeric order of their 128 bits. */
  type Uuid = nat

  type Time = nat

  datatype Role = Admin | Manager | Technician

  datatype Permission =
    | CanCreateUser | CanReadUser | CanUpdateUser
    | CanCreateAsset | CanReadAsset | CanUpdateAsset | CanDeleteAsset
    | CanCreateOrder | CanReadOrder | CanUpdateOrder | CanAssignOrder
    | CanMoveOrder | CanCancelOrder
    | CanReadAudit

  datatype User = User(name: string, email: string, hash: string, role: Role, active: bool,
                       created: Time, updated: Time)

  datatype AssetStatus = ActiveAsset | InactiveAsset | MaintenanceAsset | RetiredAsset

  datatype Asset = Asset(code: string, name: string, category: string, location: string,
                         status: AssetStatus, created: Time, updated: Time)

  datatype Priority = Low | Medium | High | Critical

  datatype Status = Open | Assigned | InProgress | Completed | Cancelled

  datatype Order = Order(number: string, asset: Uuid, title: string, description: string,
                         priority: Priority, status: Status, createdBy: Uuid,
                         assignee: Option<Uuid>, created: Time, updated: Time,
                         completed: Option<Time>)

  datatype Action =
    | UserBootstrapped | UserCreated | UserUpdated
    | AssetCreated | AssetUpdated | AssetDeleted
    | OrderCreated | OrderAssigned | OrderStatusChanged | OrderUpdated

  datatype Kind = UserEntity | AssetEntity | OrderEntity

  /** What an audit row stores of an entity. The password hash has no place in it. */
  datatype Snapshot =
    | UserSnapshot(id: Uuid, name: string, email: string, role: Role, active: bool, passwordChanged: bool)
    | AssetSnapshot(id: Uuid, asset: Asset)
    | OrderSnapshot(id: Uuid, order: Order)

  datatype Audit = Audit(actor: Option<Uuid>, action: Action, kind: Kind, id: Uuid,
                         before: Option<Snapshot>, after: Option<Snapshot>)

  function KindOfSnapshot(s: Snapshot): Kind {
    match s
    case UserSnapshot(_, _, _, _, _, _) => UserEntity
    case AssetSnapshot(_, _) => AssetEntity
    case OrderSnapshot(_, _) => OrderEntity
  }

  /**
   * The committed tables. `gone` holds the ids of deleted assets, which no row ever gets again,
   * and `log` lists the audit rows in commit order.
   */
  datatype Db = Db(users: map<Uuid, User>, assets: map<Uuid, Asset>, orders: map<Uuid, Order>,
                   gone: set<Uuid>, log: seq<Audit>)

  const EMPTY := Db(map[], map[], map[], {}, [])

  /** An identifier that some row, present or deleted, already carries. */
  predicate Known(db: Db, id: Uuid) {
    id in db.users || id in db.assets || id in db.orders || id in db.gone
  }

  predicate Terminal(s: Status) {
    s == Completed || s == Cancelled
  }

  /** The statuses that `UserHasActiveOrders` counts. */
  predicate Live(w: Order, u: Uuid) {
    (w.status == Assigned || w.status == InProgress) && w.assignee == Some(u)
  }

  predicate Usable(s: AssetStatus) {
    s == ActiveAsset || s == MaintenanceAsset
  }

  predicate EmailTaken(users: map<Uuid, User>, email: string) {
    exists u :: u in users && users[u].email == email
  }

  predicate EmailTakenByOther(users: map<Uuid, User>, self: Uuid, email: string) {
    exists u :: u in users && u != self && users[u].email == email
  }

  predicate CodeTaken(assets: map<Uuid, Asset>, code: string) {
    exists a :: a in assets && assets[a].code == code
  }

  predicate HasLiveOrders(orders: map<Uuid, Order>, u: Uuid) {
    exists o :: o in orders && Live(orders[o], u)
  }

  predicate HasOpenOrders(orders: map<Uuid, Order>, a: Uuid) {
    exists o :: o in orders && orders[o].asset == a && !Terminal(orders[o].status)
  }

  predicate HasOrders(orders: map<Uuid, Order>, a: Uuid) {
    exists o :: o in orders && orders[o].asset == a
  }

  predicate HasAdmin(users: map<Uuid, User>) {
    exists u :: u in users && users[u].role == Admin
  }

  function ActiveAdmins(users: map<Uuid, User>): set<Uuid> {
    set u | u in users && users[u].active && users[u].role == Admin
  }

  /** Email addresses are unique: the constraint on `users.email`. */
  ghost predicate EmailsUnique(users: map<Uuid, User>) {
    forall u, v :: u in users && v in users && users[u].email == users[v].email ==> u == v
  }
}
