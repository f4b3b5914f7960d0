/**
 * Whole transactions: taking the first locks, checking the permission, the body, the audit rows.
 * A transaction is its request, its start time and the answers it has got; everything else about
 * it (where it is, what it has written, which locks it holds) follows from these.
 */
module Programs {
  import opened Types
  import opened Policy
  import opened Statements
  import opened Flow
  import opened Requests
  import O = OrderRequests
  import OP = OrderProgram
  import A = AssetRequests
  import AP = AssetProgram
  import UP = UserProgram
  import CP = AccountProgram

  datatype Place =
    | AtAdministration
    | AtPrelock(u: Uuid, rest: seq<Uuid>)
    | AtShareActor
    | AtCheckUser
    | AtCheckPermission
    | InOrder(o: OP.Place)
    | InAsset(a: AP.Place)
    | InUser(c: UP.Place)
    | InAccount(b: CP.Place)
    | AtAudit(rows: seq<Audit>, back: Option<Uuid>)
    | AtReadBack(u: Uuid)
    | Succeeded
    | Refused(error: Error)

  /** Users are locked in ascending order of their ids. */
  function Begin(req: Request): Place {
    match req
    case OfOrder(o) =>
      if o.Create? then AtShareActor
      else if o.Assign? && o.target < o.actor then AtPrelock(o.target, [o.actor])
      else AtPrelock(o.actor, if o.Assign? then [o.target] else [])
    case OfAsset(a) => AtPrelock(a.actor, [])
    case OfUser(_) => AtAdministration
    case OfAccount(_) => AtAdministration
  }

  /** The statement at a place; none when the transaction is over. */
  function Ask(req: Request, start: Time, at: Place): Option<Statement> {
    match at
    case AtAdministration => Some(LockUserAdministration)
    case AtPrelock(u, _) => Some(PrelockUser(u))
    case AtShareActor => Some(ShareUser(ActorOf(req)))
    case AtCheckUser => Some(GetCurrentUser(ActorOf(req)))
    case AtCheckPermission => Some(UserHasPermission(ActorOf(req), PermissionOf(req)))
    case InOrder(p) => if req.OfOrder? then OP.Ask(req.order, start, p) else None
    case InAsset(p) => if req.OfAsset? then AP.Ask(req.asset, start, p) else None
    case InUser(p) => if req.OfUser? then UP.Ask(req.user, start, p) else None
    case InAccount(p) => if req.OfAccount? then CP.Ask(req.account, start, p) else None
    case AtAudit(rows, _) => if rows == [] then None else Some(InsertAudit(rows[0]))
    case AtReadBack(u) => Some(GetCurrentUser(u))
    case Succeeded => None
    case Refused(_) => None
  }

  /** The body of the transaction begins. */
  function Body(req: Request): Place {
    match req
    case OfOrder(o) => InOrder(OP.Enter(o))
    case OfAsset(a) => InAsset(AP.Enter(a))
    case OfUser(u) => InUser(UP.Enter(u))
    case OfAccount(c) => InAccount(CP.Enter(c))
  }

  function Ending(rows: seq<Audit>, back: Option<Uuid>): Place {
    if rows != [] then AtAudit(rows, back)
    else match back
      case Some(u) => AtReadBack(u)
      case None => Succeeded
  }

  function Onward<P>(next: Next<P>, inside: P -> Place): Place {
    match next
    case Go(p) => inside(p)
    case Record(rows, back) => Ending(rows, back)
    case Refuse(e) => Refused(e)
  }

  function Opening(req: Request, at: Place, answer: Answer): Place {
    match at
    case AtAdministration => if req.OfAccount? then Body(req) else AtCheckUser
    case AtPrelock(_, rest) => if rest == [] then AtCheckUser else AtPrelock(rest[0], rest[1..])
    case AtShareActor => if answer == UserRow(None) then Refused(Inactive) else AtCheckUser
    case AtCheckUser =>
      if answer.UserRow? && answer.userRow.Some? && answer.userRow.value.active then AtCheckPermission
      else Refused(Inactive)
    case AtCheckPermission => if answer == Truth(true) then Body(req) else Refused(Forbidden)
    case _ => at
  }

  function Advance(req: Request, start: Time, at: Place, answer: Answer): Place {
    match at
    case InOrder(p) => if req.OfOrder? then Onward(OP.Advance(req.order, p, answer), q => InOrder(q)) else at
    case InAsset(p) => if req.OfAsset? then Onward(AP.Advance(req.asset, start, p, answer), q => InAsset(q)) else at
    case InUser(p) => if req.OfUser? then Onward(UP.Advance(req.user, start, p, answer), q => InUser(q)) else at
    case InAccount(p) =>
      if req.OfAccount? then Onward(CP.Advance(req.account, start, p, answer), q => InAccount(q)) else at
    case AtAudit(rows, back) => if rows == [] then at else Ending(rows[1..], back)
    case AtReadBack(_) => if answer.UserRow? && answer.userRow.Some? then Succeeded else Refused(RowVanished)
    case _ => Opening(req, at, answer)
  }

  // ---- Transactions

  datatype Txn = Txn(req: Request, start: Time, answers: seq<Answer>)

  predicate Fresh(t: Txn) {
    t.answers == []
  }

  function Cut(t: Txn): Txn
    requires !Fresh(t)
  {
    t.(answers := t.answers[..|t.answers| - 1])
  }

  function Last(t: Txn): Answer
    requires !Fresh(t)
  {
    t.answers[|t.answers| - 1]
  }

  function Extend(t: Txn, answer: Answer): Txn {
    t.(answers := t.answers + [answer])
  }

  function PlaceOf(t: Txn): Place
    decreases |t.answers|
  {
    if Fresh(t) then Begin(t.req) else Advance(t.req, t.start, PlaceOf(Cut(t)), Last(t))
  }

  /** The statement the transaction issues next. */
  function AskOf(t: Txn): Option<Statement> {
    Ask(t.req, t.start, PlaceOf(t))
  }

  /** What the transaction sees on top of the committed database `db`: its own writes. */
  function View(t: Txn, db: Db): Db
    decreases |t.answers|
  {
    if Fresh(t) then db
    else match AskOf(Cut(t))
      case Some(s) => Effect(s, Last(t), View(Cut(t), db))
      case None => View(Cut(t), db)
  }

  function LocksOf(t: Txn): set<Lock>
    decreases |t.answers|
  {
    if Fresh(t) then {}
    else match AskOf(Cut(t))
      case Some(s) => LocksOf(Cut(t)) + Takes(s, Last(t))
      case None => LocksOf(Cut(t))
  }

  /** The answers so far are answers the program can get when it runs alone on `db`. */
  ghost predicate Solo(t: Txn, db: Db)
    decreases |t.answers|
  {
    Fresh(t) ||
    (&& Solo(Cut(t), db)
     && AskOf(Cut(t)).Some?
     && Allows(AskOf(Cut(t)).value, View(Cut(t), db), Last(t)))
  }

  lemma CutExtend(t: Txn, answer: Answer)
    ensures !Fresh(Extend(t, answer))
    ensures Cut(Extend(t, answer)) == t && Last(Extend(t, answer)) == answer
  {
    assert (t.answers + [answer])[..|t.answers|] == t.answers;
  }

  /** One answer more: where the transaction gets, what it sees, and that it still is a solo run. */
  lemma ExtendSolo(t: Txn, db: Db, s: Statement, answer: Answer)
    requires Solo(t, db) && AskOf(t) == Some(s) && Allows(s, View(t, db), answer)
    ensures Solo(Extend(t, answer), db)
    ensures View(Extend(t, answer), db) == Effect(s, answer, View(t, db))
    ensures PlaceOf(Extend(t, answer)) == Advance(t.req, t.start, PlaceOf(t), answer)
  {
    CutExtend(t, answer);
  }

  lemma ExtendLocks(t: Txn, answer: Answer)
    requires AskOf(t).Some?
    ensures LocksOf(Extend(t, answer)) == LocksOf(t) + Takes(AskOf(t).value, answer)
  {
    CutExtend(t, answer);
  }
}
