/**
 * The SQL statements of the write transactions: what each may answer on a database, what it
 * writes, and which locks it needs. Rows come back in their latest version.
 */
module Statements {
  import opened Types
  import opened Policy
  import Numbers

  // ---- Rows as the database returns them

  /** What `UPDATE work_orders` returns for an existing row; its stamps are whatever the clock shows. */
  predicate RewrittenOrder(was: Order, next: Order, now: Order) {
    && now == was.(title := next.title, description := next.description, priority := next.priority,
                   status := next.status, assignee := next.assignee,
                   updated := now.updated, completed := now.completed)
    && (now.completed.Some? <==> next.status == Completed)
  }

  predicate RewrittenAsset(was: Asset, next: Asset, now: Asset) {
    now == was.(name := next.name, category := next.category, location := next.location,
                status := next.status, updated := now.updated)
  }

  predicate RewrittenUser(was: User, next: User, now: User) {
    now == was.(name := next.name, email := next.email, hash := next.hash, active := next.active,
                updated := now.updated)
  }

  /** A rewritten row that is stamped no earlier than the row before it. */
  predicate UpdatedOrder(was: Order, next: Order, now: Order) {
    && RewrittenOrder(was, next, now)
    && was.updated <= now.updated
    && (now.completed.Some? ==> was.updated <= now.completed.value)
  }

  predicate UpdatedAsset(was: Asset, next: Asset, now: Asset) {
    RewrittenAsset(was, next, now) && was.updated <= now.updated
  }

  predicate UpdatedUser(was: User, next: User, now: User) {
    RewrittenUser(was, next, now) && was.updated <= now.updated
  }

  ghost predicate NumberFree(orders: map<Uuid, Order>, n: nat) {
    forall o :: o in orders ==> Numbers.SequenceOf(orders[o].number) != n
  }

  /** `to_char(..., 'YYYY')` has four digits in these years. */
  predicate NumberedOrder(row: Order, n: nat, year: nat, numbered: Order) {
    year < 10000 && numbered == row.(number := Numbers.Format(year, n))
  }

  // ---- Statements

  datatype Statement =
    | LockUserAdministration
    | PrelockUser(u: Uuid)                      // FOR SHARE, the row itself is thrown away
    | ShareUser(u: Uuid)
    | LockUser(u: Uuid)
    | GetCurrentUser(u: Uuid)
    | UserHasPermission(u: Uuid, p: Permission)
    | CountActiveAdmins
    | UserHasActiveOrders(u: Uuid)
    | HasAdministrator
    | GetLoginUser(email: string)
    | InsertUser(user: User)
    | UpdateUser(u: Uuid, nextUser: User)
    | ShareAsset(a: Uuid)
    | LockAsset(a: Uuid)
    | AssetHasOrders(a: Uuid)
    | AssetHasOpenOrders(a: Uuid)
    | InsertAsset(asset: Asset)
    | UpdateAsset(a: Uuid, nextAsset: Asset)
    | DeleteAsset(a: Uuid, code: string)        // `code` is the entry leaving the unique index
    | LockWorkOrder(o: Uuid)
    | InsertWorkOrder(order: Order)             // numbered by the statement itself
    | UpdateWorkOrder(o: Uuid, nextOrder: Order)
    | InsertAudit(audit: Audit)

  datatype Answer =
    | Done
    | Prelocked(found: bool)
    | Truth(holds: bool)
    | Count(n: int)
    | UserRow(userRow: Option<User>)
    | LoginRow(id: Uuid, user: User)
    | NoLogin
    | AssetRow(assetRow: Option<Asset>)
    | OrderRow(orderRow: Option<Order>)
    | Inserted(id: Uuid)
    | InsertedOrder(id: Uuid, number: nat, year: nat, order: Order)
    | Duplicate

  function Lookup<T>(m: map<Uuid, T>, id: Uuid): Option<T> {
    if id in m then Some(m[id]) else None
  }

  /** What SQL promises of the answer to statement `s` of a transaction that sees `v`. */
  ghost predicate Promises(s: Statement, v: Db, answer: Answer) {
    match s
    case LockUserAdministration => answer == Done
    case PrelockUser(u) => answer.Prelocked?
    case ShareUser(u) => answer == UserRow(Lookup(v.users, u))
    case LockUser(u) => answer == UserRow(Lookup(v.users, u))
    case GetCurrentUser(u) => answer == UserRow(Lookup(v.users, u))
    case UserHasPermission(u, p) => answer == Truth(HasPermission(v.users, u, p))
    case CountActiveAdmins => answer == Count(|ActiveAdmins(v.users)|)
    case UserHasActiveOrders(u) => answer == Truth(HasLiveOrders(v.orders, u))
    case HasAdministrator => answer == Truth(HasAdmin(v.users))
    case GetLoginUser(email) =>
      || (answer.LoginRow? && answer.id in v.users && v.users[answer.id] == answer.user && answer.user.email == email)
      || (answer == NoLogin && !EmailTaken(v.users, email))
    case InsertUser(row) =>
      if EmailTaken(v.users, row.email) then answer == Duplicate
      else answer.Inserted? && !Known(v, answer.id)
    case UpdateUser(u, next) =>
      if u !in v.users then answer == UserRow(None)
      else if EmailTakenByOther(v.users, u, next.email) then answer == Duplicate
      else answer.UserRow? && answer.userRow.Some? && RewrittenUser(v.users[u], next, answer.userRow.value)
    case ShareAsset(a) => answer == AssetRow(Lookup(v.assets, a))
    case LockAsset(a) => answer == AssetRow(Lookup(v.assets, a))
    case AssetHasOrders(a) => answer == Truth(HasOrders(v.orders, a))
    case AssetHasOpenOrders(a) => answer == Truth(HasOpenOrders(v.orders, a))
    case InsertAsset(row) =>
      if CodeTaken(v.assets, row.code) then answer == Duplicate
      else answer.Inserted? && !Known(v, answer.id)
    case UpdateAsset(a, next) =>
      if a !in v.assets then answer == AssetRow(None)
      else answer.AssetRow? && answer.assetRow.Some? && RewrittenAsset(v.assets[a], next, answer.assetRow.value)
    case DeleteAsset(a, code) => answer == Done
    case LockWorkOrder(o) => answer == OrderRow(Lookup(v.orders, o))
    case InsertWorkOrder(row) =>
      && answer.InsertedOrder?
      && !Known(v, answer.id)
      && NumberedOrder(row, answer.number, answer.year, answer.order)
    case UpdateWorkOrder(o, next) =>
      if o !in v.orders then answer == OrderRow(None)
      else answer.OrderRow? && answer.orderRow.Some? && RewrittenOrder(v.orders[o], next, answer.orderRow.value)
    case InsertAudit(row) => answer == Done
  }

  /** A row that is written over gets no earlier stamp than it had. */
  predicate StampsAscend(s: Statement, v: Db, answer: Answer) {
    match (s, answer)
    case (UpdateUser(u, _), UserRow(Some(now))) => u in v.users ==> v.users[u].updated <= now.updated
    case (UpdateAsset(a, _), AssetRow(Some(now))) => a in v.assets ==> v.assets[a].updated <= now.updated
    case (UpdateWorkOrder(o, _), OrderRow(Some(now))) =>
      o in v.orders ==>
        && v.orders[o].updated <= now.updated
        && (now.completed.Some? ==> v.orders[o].updated <= now.completed.value)
    case _ => true
  }

  /** A new order gets a number that no order has. */
  ghost predicate NumberUnused(s: Statement, v: Db, answer: Answer) {
    s.InsertWorkOrder? && answer.InsertedOrder? ==> NumberFree(v.orders, answer.number)
  }

  /**
   * `answer` is a possible answer to `s` on `v`, with a clock that does not go back and a sequence
   * that does not repeat itself.
   */
  ghost predicate Allows(s: Statement, v: Db, answer: Answer) {
    Promises(s, v, answer) && StampsAscend(s, v, answer) && NumberUnused(s, v, answer)
  }

  /** What a statement with its answer changes in the transaction's own view. */
  function Effect(s: Statement, answer: Answer, v: Db): Db {
    match (s, answer)
    case (InsertUser(row), Inserted(id)) => v.(users := v.users[id := row])
    case (UpdateUser(u, _), UserRow(Some(row))) => v.(users := v.users[u := row])
    case (InsertAsset(row), Inserted(id)) => v.(assets := v.assets[id := row])
    case (UpdateAsset(a, _), AssetRow(Some(row))) => v.(assets := v.assets[a := row])
    case (DeleteAsset(a, _), _) => v.(assets := v.assets - {a}, gone := v.gone + {a})
    case (InsertWorkOrder(_), InsertedOrder(id, _, _, row)) => v.(orders := v.orders[id := row])
    case (UpdateWorkOrder(o, _), OrderRow(Some(row))) => v.(orders := v.orders[o := row])
    case (InsertAudit(row), _) => v.(log := v.log + [row])
    case _ => v
  }

  // ---- Locks, all held until the transaction ends

  datatype Lock =
    | Administration                            // the advisory lock
    | UserShared(u: Uuid) | UserExclusive(u: Uuid)
    | AssetShared(a: Uuid) | AssetExclusive(a: Uuid)
    | OrderExclusive(o: Uuid)
    | CodeEntry(code: string)                   // an entry of the unique index on asset codes
    | FreshId(id: Uuid)                         // a generated id is handed out once
    | FreshNumber(n: nat)                       // and so is a sequence value

  predicate Conflict(k: Lock, l: Lock) {
    match k
    case UserShared(u) => l == UserExclusive(u)
    case UserExclusive(u) => l == UserExclusive(u) || l == UserShared(u)
    case AssetShared(a) => l == AssetExclusive(a)
    case AssetExclusive(a) => l == AssetExclusive(a) || l == AssetShared(a)
    case _ => k == l
  }

  /** The locks that must be granted before the statement can answer. */
  function Needs(s: Statement): set<Lock> {
    match s
    case LockUserAdministration => {Administration}
    case PrelockUser(u) => {UserShared(u)}
    case ShareUser(u) => {UserShared(u)}
    case LockUser(u) => {UserExclusive(u)}
    case ShareAsset(a) => {AssetShared(a)}
    case LockAsset(a) => {AssetExclusive(a)}
    case LockWorkOrder(o) => {OrderExclusive(o)}
    case InsertAsset(row) => {CodeEntry(row.code)}
    case DeleteAsset(_, code) => {CodeEntry(code)}
    case _ => {}
  }

  /** The locks kept after the answer; a row that is not there cannot be locked. */
  function Takes(s: Statement, answer: Answer): set<Lock> {
    match answer
    case UserRow(None) => {}
    case AssetRow(None) => {}
    case OrderRow(None) => {}
    case Prelocked(false) => {}
    case Duplicate => {}
    case Inserted(id) => Needs(s) + {FreshId(id)}
    case InsertedOrder(id, n, _, _) => {FreshId(id), FreshNumber(n)}
    case _ => Needs(s)
  }
}
