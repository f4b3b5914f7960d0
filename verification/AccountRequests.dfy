/** Creating the first administrator and seeding the demo accounts, each as one atomic step. */
module AccountRequests {
  import opened Types
  import opened Policy
  import U = UserRequests

  datatype AccountRequest =
    | Bootstrap(name: string, email: string, hash: string)
    | SeedDemo(hashes: seq<string>)

  predicate WellFormed(req: AccountRequest) {
    req.SeedDemo? ==> |req.hashes| == 3
  }

  function DemoRole(k: nat): Role {
    if k == 0 then Admin else if k == 1 then Manager else Technician
  }

  function DemoEmail(k: nat): string {
    if k == 0 then "admin@gowork.dev" else if k == 1 then "manager@gowork.dev" else "technician@gowork.dev"
  }

  function DemoName(k: nat): string {
    if k == 0 then "Demo ADMIN" else if k == 1 then "Demo MANAGER" else "Demo TECHNICIAN"
  }

  function DemoRow(k: nat, hash: string, start: Time): User {
    U.NewRow(DemoName(k), DemoEmail(k), hash, DemoRole(k), start)
  }

  predicate DemoPresent(users: map<Uuid, User>, k: nat) {
    EmailTaken(users, DemoEmail(k))
  }

  predicate DemoAccount(user: User, k: nat) {
    user.email == DemoEmail(k) && user.role == DemoRole(k) && user.active
  }

  /** An account has the k-th demo email without being the active user of the k-th demo role. */
  predicate DemoConflicts(users: map<Uuid, User>, k: nat) {
    exists u :: u in users && users[u].email == DemoEmail(k) && !DemoAccount(users[u], k)
  }

  /** Why seeding stops at the k-th account or later. */
  function SeedVerdict(users: map<Uuid, User>, k: nat): Option<Error>
    decreases 3 - k
  {
    if 3 <= k then None
    else if DemoConflicts(users, k) then Some(DemoConflict)
    else if k == 0 && !DemoPresent(users, 0) && HasAdmin(users) then Some(AlreadyBootstrapped)
    else SeedVerdict(users, k + 1)
  }

  function SeedActor(k: nat, admin: Option<Uuid>): Option<Uuid> {
    if k == 0 then None else admin
  }

  function SeedAction(k: nat): Action {
    if k == 0 then UserBootstrapped else UserCreated
  }

  /**
   * The i-th round of the seeding loop, counted from one, for the i-th demo account `id`;
   * `admin` is the demo administrator once it is known.
   */
  ghost predicate SeedRound(i: nat, start: Time, hashes: seq<string>, db: Db, admin: Option<Uuid>,
                            db': Db, admin': Option<Uuid>, id: Uuid)
    requires 1 <= i <= 3 && |hashes| == 3
  {
    var k := i - 1;
    && admin' == (if k == 0 then Some(id) else admin)
    && if DemoPresent(db.users, k) then
         db' == db && id in db.users && DemoAccount(db.users[id], k)
       else
         && (k == 0 ==> !HasAdmin(db.users))
         && U.Added(SeedActor(k, admin), SeedAction(k), DemoRow(k, hashes[k], start), db, db', id)
  }

  ghost predicate SeededTo(i: nat, start: Time, hashes: seq<string>, db: Db, db': Db, admin: Option<Uuid>)
    requires i <= 3 && |hashes| == 3
  {
    if i == 0 then db' == db && admin == None
    else
      exists mid: Db, a: Option<Uuid>, id: Uuid ::
        && SeedRound(i, start, hashes, mid, a, db', admin, id)
        && SeededTo(i - 1, start, hashes, db, mid, a)
  }

  function Verdict(req: AccountRequest, db: Db): Option<Error> {
    match req
    case Bootstrap(_, email, _) =>
      if HasAdmin(db.users) then Some(AlreadyBootstrapped)
      else if EmailTaken(db.users, email) then Some(EmailConflict)
      else None
    case SeedDemo(_) => SeedVerdict(db.users, 0)
  }

  ghost predicate Outcome(req: AccountRequest, start: Time, db: Db, db': Db)
    requires WellFormed(req) && Verdict(req, db) == None
  {
    match req
    case Bootstrap(name, email, hash) =>
      exists id: Uuid :: U.Added(None, UserBootstrapped, U.NewRow(name, email, hash, Admin, start), db, db', id)
    case SeedDemo(hashes) => exists admin: Option<Uuid> :: SeededTo(3, start, hashes, db, db', admin)
  }
}
