/**
 * What an open transaction has written so far keeps the rules as well: its view of the tables is
 * sound after every statement, so the checks on the rows never have anything to object to.
 */
module Views {
  import opened Types
  import opened Requests
  import opened Programs
  import opened SoloRuns
  import opened Safety
  import C = AccountRequests
  import CP = AccountProgram

  /** The rules are about rows; audit rows do not count. */
  lemma LogDoesNotCount(v: Db, log: seq<Audit>)
    requires Sound(v.(log := log))
    ensures Sound(v)
  {
  }

  lemma SeedingViewSound(req: C.AccountRequest, start: Time, p: CP.Place, db: Db, v: Db)
    requires Sound(db) && CP.Facts(req, start, p, db, v)
    ensures Sound(v)
  {
    hide Sound, CP.SeedFrame, C.SeedVerdict, C.SeededTo;
    match p
    case AtAnyAdmin =>
    case AtInsertAdmin =>
    case AtLook(k, admin) => SeededSound(k, start, req.hashes, db, v, admin);
    case AtSeedAnyAdmin => SeededSound(0, start, req.hashes, db, v, None);
    case AtSeedInsert(k, admin) => SeededSound(k, start, req.hashes, db, v, admin);
    case AtSeedAudit(k, admin, row) =>
      SeededSound(k + 1, start, req.hashes, db, v.(log := v.log + [row]), admin);
      LogDoesNotCount(v, v.log + [row]);
  }

  lemma FactsViewSound(req: Request, start: Time, at: Place, db: Db, v: Db)
    requires Sound(db) && Facts(req, start, at, db, v) && !at.Refused?
    ensures Sound(v)
  {
    hide Sound, Applies, CP.Facts;
    match at
    case InAccount(p) => SeedingViewSound(req.account, start, p, db, v);
    case AtAudit(rows, _) =>
      AppliesSound(req, start, db, v.(log := v.log + rows));
      LogDoesNotCount(v, v.log + rows);
    case AtReadBack(_) => AppliesSound(req, start, db, v);
    case Succeeded => AppliesSound(req, start, db, v);
    case _ =>
  }

  lemma SoloViewSound(t: Txn, db: Db)
    requires WellFormed(t.req) && Sound(db) && Solo(t, db) && !PlaceOf(t).Refused?
    ensures Sound(View(t, db))
  {
    assert EmailsUnique(db.users);
    hide Sound, Solo, View, PlaceOf, Facts;
    SoloFacts(t, db);
    FactsViewSound(t.req, t.start, PlaceOf(t), db, View(t, db));
  }
}
