/**
 * All write requests, each as one atomic step over the committed database: `Verdict` says whether
 * a request is refused and why, `Outcome` what a request that goes through leaves behind.
 */
module Requests {
  import opened Types
  import opened Policy
  import O = OrderRequests
  import A = AssetRequests
  import U = UserRequests
  import C = AccountRequests

  datatype Request =
    | OfOrder(order: O.OrderRequest)
    | OfAsset(asset: A.AssetRequest)
    | OfUser(user: U.UserRequest)
    | OfAccount(account: C.AccountRequest)

  /** Bootstrapping and seeding run from the command line, without an actor. */
  predicate HasActor(req: Request) {
    !req.OfAccount?
  }

  function ActorOf(req: Request): Uuid {
    match req
    case OfOrder(o) => o.actor
    case OfAsset(a) => a.actor
    case OfUser(u) => u.actor
    case OfAccount(_) => 0
  }

  function PermissionOf(req: Request): Permission {
    match req
    case OfOrder(o) => O.PermissionOf(o)
    case OfAsset(a) => A.PermissionOf(a)
    case OfUser(u) => U.PermissionOf(u)
    case OfAccount(_) => CanCreateUser
  }

  predicate WellFormed(req: Request) {
    match req
    case OfOrder(o) => O.WellFormed(o)
    case OfAsset(a) => A.WellFormed(a)
    case OfUser(u) => U.WellFormed(u)
    case OfAccount(c) => C.WellFormed(c)
  }

  predicate Authorized(db: Db, req: Request) {
    HasActor(req) ==> HasPermission(db.users, ActorOf(req), PermissionOf(req))
  }

  function BodyVerdict(req: Request, db: Db): Option<Error>
    requires HasActor(req) ==> ActorOf(req) in db.users
  {
    match req
    case OfOrder(o) => O.Verdict(o, db)
    case OfAsset(a) => A.Verdict(a, db)
    case OfUser(u) => U.Verdict(u, db)
    case OfAccount(c) => C.Verdict(c, db)
  }

  /** Why a request is refused on a database, or `None` when it goes through. */
  function Verdict(req: Request, db: Db): Option<Error> {
    if HasActor(req) && Check(db.users, ActorOf(req), PermissionOf(req)) != None then
      Check(db.users, ActorOf(req), PermissionOf(req))
    else BodyVerdict(req, db)
  }

  /** The database a successful request leaves, up to the ids, numbers and stamps it draws. */
  ghost predicate Outcome(req: Request, start: Time, db: Db, db': Db)
    requires WellFormed(req) && Verdict(req, db) == None
  {
    match req
    case OfOrder(o) => O.Outcome(o, start, db, db')
    case OfAsset(a) => A.Outcome(a, start, db, db')
    case OfUser(u) => U.Outcome(u, start, db, db')
    case OfAccount(c) => C.Outcome(c, start, db, db')
  }

  /** A request goes through on `db` and leaves `db'`. */
  ghost predicate Applies(req: Request, start: Time, db: Db, db': Db) {
    WellFormed(req) && Verdict(req, db) == None && Outcome(req, start, db, db')
  }
}
