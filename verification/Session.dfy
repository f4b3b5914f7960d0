/**
 * A transaction's connection to the database, as the services see it: queries change its own view
 * of the tables. Everything it is asked is checked to be the next statement of the program that
 * the interleaving system runs for the same request.
 */
module Session {
  import opened Types
  import opened Policy
  import opened Statements
  import opened Requests
  import opened Programs
  import opened Guards
  import opened Machine
  import Numbers

  ghost predicate IdsBelow(db: Db, spare: Uuid) {
    && (forall u :: u in db.users ==> u < spare)
    && (forall a :: a in db.assets ==> a < spare)
    && (forall o :: o in db.orders ==> o < spare)
    && (forall g :: g in db.gone ==> g < spare)
  }

  /** Clock, sequence and id generator are ahead of every row. */
  ghost predicate Behind(db: Db, clock: Time, sequence: nat, spare: Uuid) {
    Timed(db, clock) && NumbersBelow(db.orders, sequence) && IdsBelow(db, spare)
  }

  class Tx {
    const req: Request
    const start: Time
    const year: nat
    var users: map<Uuid, User>
    var assets: map<Uuid, Asset>
    var orders: map<Uuid, Order>
    var gone: set<Uuid>
    var log: seq<Audit>
    var clock: Time
    var sequence: nat
    var spare: Uuid
    ghost const base: Db
    ghost var txn: Txn
    ghost var at: Place

    constructor (db: Db, req: Request, clock: Time, sequence: nat, spare: Uuid, year: nat)
      requires year < 10000 && Behind(db, clock, sequence, spare)
      ensures Valid() && base == Tables() == db
      ensures this.req == req && start == clock && at == Begin(req)
      ensures this.sequence == sequence && this.spare == spare && this.clock == clock && this.year == year
    {
      this.req, this.start, this.year := req, clock, year;
      users, assets, orders, gone, log := db.users, db.assets, db.orders, db.gone, db.log;
      this.clock, this.sequence, this.spare := clock, sequence, spare;
      base, txn, at := db, Txn(req, clock, []), Begin(req);
    }

    function Tables(): Db
      reads this
    {
      Db(users, assets, orders, gone, log)
    }

    ghost predicate Valid()
      reads this
    {
      Recorded(Tables()) && Supplied(Tables()) && Supplied(base)
    }

    /** The answers so far are a solo run of the program, which sees the tables `v`. */
    ghost predicate Recorded(v: Db)
      reads this`txn, this`at
    {
      && txn.req == req && txn.start == start && at == PlaceOf(txn)
      && Solo(txn, base) && View(txn, base) == v
    }

    ghost predicate Supplied(v: Db)
      reads this
    {
      start <= clock && year < 10000 && Behind(v, clock, sequence, spare)
    }

    /** One statement of the program: its answer is possible, and the view changes as it says. */
    method Query(s: Statement) returns (answer: Answer)
      requires Valid() && Ask(req, start, at) == Some(s)
      modifies this
      ensures Valid()
      ensures Allows(s, old(Tables()), answer) && Tables() == Effect(s, answer, old(Tables()))
      ensures at == Advance(req, start, old(at), answer)
    {
      hide Allows, Effect, Solo, View, PlaceOf;
      ghost var v := Tables();
      AskTimed(txn);
      Tick();
      answer := Perform(s);
      Note(s, v, answer);
    }

    ghost method Note(s: Statement, v: Db, answer: Answer)
      requires Recorded(v) && Ask(req, start, at) == Some(s) && Allows(s, v, answer)
      modifies this`txn, this`at
      ensures Recorded(Effect(s, answer, v))
      ensures at == Advance(req, start, old(at), answer)
    {
      ExtendSolo(txn, base, s, answer);
      txn := Extend(txn, answer);
      at := PlaceOf(txn);
    }

    /** Time passes between two statements. */
    method Tick()
      requires Supplied(Tables()) && Supplied(base)
      modifies this`clock
      ensures Supplied(Tables()) && Supplied(base) && old(clock) < clock
    {
      StillTimed(Tables(), clock, clock + 1);
      StillTimed(base, clock, clock + 1);
      clock := clock + 1;
    }

    method Perform(s: Statement) returns (answer: Answer)
      requires Supplied(Tables()) && StatementTimed(s, start)
      modifies this`users, this`assets, this`orders, this`gone, this`log, this`sequence, this`spare
      ensures Allows(s, old(Tables()), answer) && Tables() == Effect(s, answer, old(Tables()))
      ensures Supplied(Tables()) && old(sequence) <= sequence && old(spare) <= spare
    {
      if s.InsertUser? || s.UpdateUser? {
        answer := WriteUser(s);
      } else if s.InsertWorkOrder? {
        answer := NumberOrder(s.order);
      } else if s.UpdateWorkOrder? {
        answer := UpdateOrder(s.o, s.nextOrder);
      } else if s.InsertAsset? || s.UpdateAsset? || s.DeleteAsset? {
        answer := WriteAsset(s);
      } else if s.InsertAudit? {
        answer := Done;
        log := log + [s.audit];
      } else {
        answer := Read(s);
      }
    }

    method Read(s: Statement) returns (answer: Answer)
      requires IsRead(s)
      ensures Allows(s, Tables(), answer) && Effect(s, answer, Tables()) == Tables()
    {
      hide HasPermission;
      match s
      case LockUserAdministration => answer := Done;
      case PrelockUser(u) => answer := Prelocked(u in users);
      case ShareUser(u) => answer := UserRow(Lookup(users, u));
      case LockUser(u) => answer := UserRow(Lookup(users, u));
      case GetCurrentUser(u) => answer := UserRow(Lookup(users, u));
      case UserHasPermission(u, p) => answer := Truth(HasPermission(users, u, p));
      case CountActiveAdmins => answer := Count(|ActiveAdmins(users)|);
      case UserHasActiveOrders(u) => answer := Truth(HasLiveOrders(orders, u));
      case HasAdministrator => answer := Truth(HasAdmin(users));
      case GetLoginUser(email) =>
        if EmailTaken(users, email) {
          var u :| u in users && users[u].email == email;
          answer := LoginRow(u, users[u]);
        } else {
          answer := NoLogin;
        }
      case ShareAsset(a) => answer := AssetRow(Lookup(assets, a));
      case LockAsset(a) => answer := AssetRow(Lookup(assets, a));
      case AssetHasOrders(a) => answer := Truth(HasOrders(orders, a));
      case AssetHasOpenOrders(a) => answer := Truth(HasOpenOrders(orders, a));
      case LockWorkOrder(o) => answer := OrderRow(Lookup(orders, o));
    }

    method WriteUser(s: Statement) returns (answer: Answer)
      requires s.InsertUser? || s.UpdateUser?
      requires Supplied(Tables()) && StatementTimed(s, start)
      modifies this`users, this`spare
      ensures Allows(s, old(Tables()), answer) && Tables() == Effect(s, answer, old(Tables()))
      ensures Supplied(Tables()) && old(sequence) <= sequence && old(spare) <= spare
    {
      match s
      case InsertUser(row) =>
        if EmailTaken(users, row.email) {
          answer := Duplicate;
        } else {
          answer := Inserted(spare);
          users, spare := users[spare := row], spare + 1;
        }
      case UpdateUser(u, n) =>
        if u !in users {
          answer := UserRow(None);
        } else if EmailTakenByOther(users, u, n.email) {
          answer := Duplicate;
        } else {
          var row := users[u].(name := n.name, email := n.email, hash := n.hash, active := n.active, updated := clock);
          answer := UserRow(Some(row));
          users := users[u := row];
        }
    }

    method WriteAsset(s: Statement) returns (answer: Answer)
      requires s.InsertAsset? || s.UpdateAsset? || s.DeleteAsset?
      requires Supplied(Tables()) && StatementTimed(s, start)
      modifies this`assets, this`gone, this`spare
      ensures Allows(s, old(Tables()), answer) && Tables() == Effect(s, answer, old(Tables()))
      ensures Supplied(Tables()) && old(sequence) <= sequence && old(spare) <= spare
    {
      match s
      case InsertAsset(row) =>
        if CodeTaken(assets, row.code) {
          answer := Duplicate;
        } else {
          answer := Inserted(spare);
          assets, spare := assets[spare := row], spare + 1;
        }
      case UpdateAsset(a, n) =>
        if a !in assets {
          answer := AssetRow(None);
        } else {
          var row := assets[a].(name := n.name, category := n.category, location := n.location,
                                status := n.status, updated := clock);
          answer := AssetRow(Some(row));
          assets := assets[a := row];
        }
      case DeleteAsset(a, _) =>
        answer := Done;
        assets, gone, spare := assets - {a}, gone + {a}, if a < spare then spare else a + 1;
    }

    method NumberOrder(row: Order) returns (answer: Answer)
      requires Supplied(Tables()) && StatementTimed(InsertWorkOrder(row), start)
      modifies this`orders, this`sequence, this`spare
      ensures Allows(InsertWorkOrder(row), old(Tables()), answer)
      ensures Tables() == Effect(InsertWorkOrder(row), answer, old(Tables()))
      ensures Supplied(Tables()) && old(sequence) <= sequence && old(spare) <= spare
    {
      hide Numbers.Format, Numbers.SequenceOf, Numbers.YearOf, Numbers.MatchesPattern;
      sequence := sequence + 1;
      var numbered := row.(number := Numbers.Format(year, sequence));
      Numbers.NumberReadsBack(year, sequence);
      answer := InsertedOrder(spare, sequence, year, numbered);
      orders, spare := orders[spare := numbered], spare + 1;
    }

    method UpdateOrder(o: Uuid, n: Order) returns (answer: Answer)
      requires Supplied(Tables())
      modifies this`orders
      ensures Allows(UpdateWorkOrder(o, n), old(Tables()), answer)
      ensures Tables() == Effect(UpdateWorkOrder(o, n), answer, old(Tables()))
      ensures Supplied(Tables())
    {
      if o !in orders {
        return OrderRow(None);
      }
      var row := orders[o].(title := n.title, description := n.description, priority := n.priority,
                            status := n.status, assignee := n.assignee, updated := clock,
                            completed := if n.status == Completed then Some(clock) else None);
      orders := orders[o := row];
      return OrderRow(Some(row));
    }
  }

  /** `rbac.Check` inside a transaction. */
  method Recheck(q: Tx, actor: Uuid, permission: Permission) returns (e: Option<Error>)
    requires q.Valid() && q.at == AtCheckUser
    requires actor == ActorOf(q.req) && permission == PermissionOf(q.req)
    modifies q
    ensures q.Valid()
    ensures q.at == match e case None => Body(q.req) case Some(error) => Refused(error)
  {
    hide Solo, PlaceOf, View;
    var u := q.Query(GetCurrentUser(actor));
    if u.userRow == None || !u.userRow.value.active {
      return Some(Inactive);
    }
    var allowed := q.Query(UserHasPermission(actor, permission));
    if !allowed.holds {
      return Some(Forbidden);
    }
    return None;
  }

  /** The only audit row of a transaction. */
  method WriteAudit(q: Tx, row: Audit, back: Option<Uuid>)
    requires q.Valid() && q.at == AtAudit([row], back)
    modifies q
    ensures q.Valid() && q.at == Ending([], back)
    ensures q.Tables() == old(q.Tables()).(log := old(q.log) + [row])
  {
    hide Solo, PlaceOf, View;
    assert [row][1..] == [];
    var _ := q.Query(InsertAudit(row));
  }
}
