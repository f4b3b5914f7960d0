/** Bootstrapping and demo seeding under the administration lock, and what they do running alone. */
module AccountProgram {
  import opened Types
  import opened Policy
  import opened Statements
  import opened Flow
  import opened AccountRequests
  import U = UserRequests

  datatype Place =
    | AtAnyAdmin
    | AtInsertAdmin
    | AtLook(k: nat, admin: Option<Uuid>)
    | AtSeedAnyAdmin
    | AtSeedInsert(k: nat, admin: Option<Uuid>)
    | AtSeedAudit(k: nat, admin: Option<Uuid>, row: Audit)

  function Enter(req: AccountRequest): Place {
    if req.Bootstrap? then AtAnyAdmin else AtLook(0, None)
  }

  function Ask(req: AccountRequest, start: Time, at: Place): Option<Statement> {
    match at
    case AtAnyAdmin => Some(HasAdministrator)
    case AtInsertAdmin =>
      if req.Bootstrap? then Some(InsertUser(U.NewRow(req.name, req.email, req.hash, Admin, start))) else None
    case AtLook(k, _) => Some(GetLoginUser(DemoEmail(k)))
    case AtSeedAnyAdmin => Some(HasAdministrator)
    case AtSeedInsert(k, _) =>
      if req.SeedDemo? && k < |req.hashes| then Some(InsertUser(DemoRow(k, req.hashes[k], start))) else None
    case AtSeedAudit(_, _, row) => Some(InsertAudit(row))
  }

  function NextRound(k: nat, admin: Option<Uuid>): Next<Place> {
    if k < 3 then Go(AtLook(k, admin)) else Record([], None)
  }

  function Advance(req: AccountRequest, start: Time, at: Place, answer: Answer): Next<Place> {
    match at
    case AtAnyAdmin => if answer == Truth(false) then Go(AtInsertAdmin) else Refuse(AlreadyBootstrapped)
    case AtInsertAdmin =>
      if answer == Duplicate then Refuse(EmailConflict)
      else if req.Bootstrap? && answer.Inserted? then
        Record([U.Creation(None, UserBootstrapped, answer.id,
                           U.NewRow(req.name, req.email, req.hash, Admin, start))], None)
      else Refuse(RowVanished)
    case AtLook(k, admin) =>
      if answer.LoginRow? then
        if answer.user.role != DemoRole(k) || !answer.user.active then Refuse(DemoConflict)
        else NextRound(k + 1, if k == 0 then Some(answer.id) else admin)
      else if k == 0 then Go(AtSeedAnyAdmin)
      else Go(AtSeedInsert(k, admin))
    case AtSeedAnyAdmin => if answer == Truth(false) then Go(AtSeedInsert(0, None)) else Refuse(AlreadyBootstrapped)
    case AtSeedInsert(k, admin) =>
      if answer == Duplicate then Refuse(EmailConflict)
      else if req.SeedDemo? && k < |req.hashes| && answer.Inserted? then
        Go(AtSeedAudit(k, if k == 0 then Some(answer.id) else admin,
                       U.Creation(SeedActor(k, admin), SeedAction(k), answer.id,
                                  DemoRow(k, req.hashes[k], start))))
      else Refuse(RowVanished)
    case AtSeedAudit(k, admin, _) => NextRound(k + 1, admin)
  }

  // ---- Running alone

  /** The seeding loop has touched nothing but accounts with the demo emails below `i`. */
  ghost predicate SeedFrame(i: nat, users: map<Uuid, User>, seeded: map<Uuid, User>) {
    && EmailsUnique(seeded)
    && (forall u :: u in users ==> u in seeded && seeded[u] == users[u])
    && (forall u :: u in seeded && u !in users ==> DemoEmailBelow(seeded[u].email, i))
  }

  predicate DemoEmailBelow(email: string, i: nat) {
    || (0 < i && email == DemoEmail(0))
    || (1 < i && email == DemoEmail(1))
    || (2 < i && email == DemoEmail(2))
  }

  ghost predicate Seeding(req: AccountRequest, start: Time, i: nat, db: Db, v: Db, admin: Option<Uuid>) {
    && req.SeedDemo? && |req.hashes| == 3 && i <= 3
    && SeededTo(i, start, req.hashes, db, v, admin)
    && SeedFrame(i, db.users, v.users)
    && SeedVerdict(db.users, 0) == SeedVerdict(db.users, i)
  }

  ghost predicate Facts(req: AccountRequest, start: Time, at: Place, db: Db, v: Db) {
    match at
    case AtAnyAdmin => v == db && req.Bootstrap?
    case AtInsertAdmin => v == db && req.Bootstrap? && !HasAdmin(db.users)
    case AtLook(k, admin) => k < 3 && Seeding(req, start, k, db, v, admin)
    case AtSeedAnyAdmin => Seeding(req, start, 0, db, v, None) && !DemoPresent(v.users, 0)
    case AtSeedInsert(k, admin) =>
      && k < 3 && Seeding(req, start, k, db, v, admin)
      && !DemoPresent(v.users, k) && (k == 0 ==> !HasAdmin(v.users))
    case AtSeedAudit(k, admin, row) => k < 3 && Seeding(req, start, k + 1, db, v.(log := v.log + [row]), admin)
  }

  ghost predicate NextFacts(req: AccountRequest, start: Time, next: Next<Place>, db: Db, v: Db) {
    match next
    case Go(at) => Facts(req, start, at, db, v)
    case Record(rows, back) =>
      && back == None && WellFormed(req) && Verdict(req, db) == None
      && Outcome(req, start, db, v.(log := v.log + rows))
    case Refuse(e) => Verdict(req, db) == Some(e)
  }

  lemma StepFacts(req: AccountRequest, start: Time, at: Place, s: Statement, db: Db, v: Db, answer: Answer)
    requires Facts(req, start, at, db, v)
    requires Ask(req, start, at) == Some(s) && Allows(s, v, answer)
    ensures NextFacts(req, start, Advance(req, start, at, answer), db, Effect(s, answer, v))
  {
    match at
    case AtAnyAdmin =>
    case AtInsertAdmin =>
      BootstrapFacts(req, start, db, answer);
    case AtLook(k, admin) => LookFacts(req, start, k, admin, db, v, answer);
    case AtSeedAnyAdmin =>
    case AtSeedInsert(k, admin) =>
      SeedInsertFacts(req, start, k, admin, db, v, answer);
    case AtSeedAudit(k, admin, row) => RoundFacts(req, start, k + 1, admin, db, v.(log := v.log + [row]));
  }

  lemma BootstrapFacts(req: AccountRequest, start: Time, db: Db, answer: Answer)
    requires req.Bootstrap? && !HasAdmin(db.users)
    requires Allows(InsertUser(U.NewRow(req.name, req.email, req.hash, Admin, start)), db, answer)
    ensures NextFacts(req, start, Advance(req, start, AtInsertAdmin, answer), db,
                      Effect(InsertUser(U.NewRow(req.name, req.email, req.hash, Admin, start)), answer, db))
  {
    if answer.Inserted? {
      var user := U.NewRow(req.name, req.email, req.hash, Admin, start);
      var row := U.Creation(None, UserBootstrapped, answer.id, user);
      assert U.Added(None, UserBootstrapped, user, db,
                     db.(users := db.users[answer.id := user], log := db.log + [row]), answer.id);
    }
  }

  lemma SeedInsertFacts(req: AccountRequest, start: Time, k: nat, admin: Option<Uuid>, db: Db, v: Db, answer: Answer)
    requires Facts(req, start, AtSeedInsert(k, admin), db, v)
    requires Allows(InsertUser(DemoRow(k, req.hashes[k], start)), v, answer)
    ensures NextFacts(req, start, Advance(req, start, AtSeedInsert(k, admin), answer), db,
                      Effect(InsertUser(DemoRow(k, req.hashes[k], start)), answer, v))
  {
    hide SeedFrame, SeedVerdict, SeededTo;
    var user := DemoRow(k, req.hashes[k], start);
    assert answer.Inserted? && !Known(v, answer.id);
    InsertFacts(req, start, k, admin, db, v, answer.id);
    var w := Effect(InsertUser(user), answer, v);
    var row := U.Creation(SeedActor(k, admin), SeedAction(k), answer.id, user);
    assert w.(log := w.log + [row]) == Inserted(req, start, k, admin, v, answer.id);
  }

  /** The next round, or the end of the loop. */
  lemma RoundFacts(req: AccountRequest, start: Time, i: nat, admin: Option<Uuid>, db: Db, v: Db)
    requires Seeding(req, start, i, db, v, admin)
    ensures NextFacts(req, start, NextRound(i, admin), db, v)
  {
    if i == 3 {
      assert v.(log := v.log + []) == v;
    }
  }

  /** An account is found or missing in the seeded users as it is in the users seeding began with. */
  lemma SameAccount(k: nat, users: map<Uuid, User>, seeded: map<Uuid, User>)
    requires k < 3 && SeedFrame(k, users, seeded)
    ensures DemoPresent(users, k) == DemoPresent(seeded, k)
    ensures DemoConflicts(users, k) == DemoConflicts(seeded, k)
  {
    assert DemoEmail(0) != DemoEmail(1) && DemoEmail(1) != DemoEmail(2) && DemoEmail(0) != DemoEmail(2) by {
      assert DemoEmail(0)[0] != DemoEmail(1)[0] && DemoEmail(1)[0] != DemoEmail(2)[0];
      assert DemoEmail(0)[0] != DemoEmail(2)[0];
    }
  }

  lemma LookFacts(req: AccountRequest, start: Time, k: nat, admin: Option<Uuid>, db: Db, v: Db, answer: Answer)
    requires k < 3 && Seeding(req, start, k, db, v, admin)
    requires Allows(GetLoginUser(DemoEmail(k)), v, answer)
    ensures NextFacts(req, start, Advance(req, start, AtLook(k, admin), answer), db, v)
  {
    SameAccount(k, db.users, v.users);
    if answer.LoginRow? && DemoAccount(answer.user, k) {
      var admin' := if k == 0 then Some(answer.id) else admin;
      assert SeedRound(k + 1, start, req.hashes, v, admin, v, admin', answer.id);
      assert !DemoConflicts(v.users, k);
      RoundFacts(req, start, k + 1, admin', db, v);
    } else if answer.LoginRow? {
      assert DemoConflicts(v.users, k);
    } else if k == 0 {
      assert v == db && admin == None;
    }
  }

  lemma FrameGrows(k: nat, users: map<Uuid, User>, seeded: map<Uuid, User>, id: Uuid, user: User)
    requires k < 3 && SeedFrame(k, users, seeded)
    requires id !in seeded && user.email == DemoEmail(k) && !EmailTaken(seeded, user.email)
    ensures SeedFrame(k + 1, users, seeded[id := user])
  {
  }

  lemma RoundInserts(req: AccountRequest, start: Time, k: nat, admin: Option<Uuid>, db: Db, v: Db, w: Db, id: Uuid)
    requires k < 3 && req.SeedDemo? && |req.hashes| == 3
    requires SeededTo(k, start, req.hashes, db, v, admin)
    requires !DemoPresent(v.users, k) && (k == 0 ==> !HasAdmin(v.users))
    requires U.Added(SeedActor(k, admin), SeedAction(k), DemoRow(k, req.hashes[k], start), v, w, id)
    ensures SeededTo(k + 1, start, req.hashes, db, w, if k == 0 then Some(id) else admin)
  {
    assert SeedRound(k + 1, start, req.hashes, v, admin, w, if k == 0 then Some(id) else admin, id);
  }

  lemma VerdictPasses(k: nat, users: map<Uuid, User>, seeded: map<Uuid, User>)
    requires k < 3 && SeedFrame(k, users, seeded)
    requires !DemoPresent(seeded, k) && (k == 0 ==> !HasAdmin(users))
    ensures SeedVerdict(users, k) == SeedVerdict(users, k + 1)
  {
    SameAccount(k, users, seeded);
  }

  /** The database once the k-th account and its audit row are written. */
  function Inserted(req: AccountRequest, start: Time, k: nat, admin: Option<Uuid>, v: Db, id: Uuid): Db
    requires req.SeedDemo? && k < |req.hashes|
  {
    v.(users := v.users[id := DemoRow(k, req.hashes[k], start)],
       log := v.log + [U.Creation(SeedActor(k, admin), SeedAction(k), id, DemoRow(k, req.hashes[k], start))])
  }

  lemma InsertFacts(req: AccountRequest, start: Time, k: nat, admin: Option<Uuid>, db: Db, v: Db, id: Uuid)
    requires k < 3 && Seeding(req, start, k, db, v, admin)
    requires !DemoPresent(v.users, k) && (k == 0 ==> !HasAdmin(v.users)) && !Known(v, id)
    ensures Seeding(req, start, k + 1, db, Inserted(req, start, k, admin, v, id), if k == 0 then Some(id) else admin)
  {
    RoundInserts(req, start, k, admin, db, v, Inserted(req, start, k, admin, v, id), id);
    FrameGrows(k, db.users, v.users, id, DemoRow(k, req.hashes[k], start));
    VerdictPasses(k, db.users, v.users);
  }
}
