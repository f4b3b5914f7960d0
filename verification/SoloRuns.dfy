/**
 * A transaction that runs alone does what the atomic request says: it succeeds only with the
 * request's outcome and when the verdict lets it through, and it is refused only with the verdict.
 */
module SoloRuns {
  import opened Types
  import opened Statements
  import opened Requests
  import opened Programs
  import O = OrderRequests
  import OP = OrderProgram
  import AP = AssetProgram
  import UP = UserProgram
  import CP = AccountProgram

  /** What a transaction knows at a place about the database it runs on and about its view `v`. */
  ghost predicate Facts(req: Request, start: Time, at: Place, db: Db, v: Db) {
    match at
    case AtAdministration => v == db && (req.OfUser? || req.OfAccount?)
    case AtPrelock(_, _) => v == db && (req.OfAsset? || (req.OfOrder? && !req.order.Create?))
    case AtShareActor => v == db && req.OfOrder? && req.order.Create?
    case AtCheckUser => v == db && HasActor(req)
    case AtCheckPermission =>
      v == db && HasActor(req) && ActorOf(req) in db.users && db.users[ActorOf(req)].active
    case InOrder(p) => v == db && req.OfOrder? && Authorized(db, req) && OP.Facts(req.order, p, db)
    case InAsset(p) => v == db && req.OfAsset? && Authorized(db, req) && AP.Facts(req.asset, p, db)
    case InUser(p) => v == db && req.OfUser? && Authorized(db, req) && UP.Facts(req.user, p, db)
    case InAccount(p) => req.OfAccount? && CP.Facts(req.account, start, p, db, v)
    case AtAudit(rows, back) =>
      && rows != [] && Applies(req, start, db, v.(log := v.log + rows))
      && (back.Some? ==> req.OfUser? && back.value in v.users)
    case AtReadBack(u) => req.OfUser? && Applies(req, start, db, v) && u in v.users
    case Succeeded => Applies(req, start, db, v)
    case Refused(e) => Verdict(req, db) == Some(e)
  }

  lemma BeginFacts(req: Request, start: Time, db: Db)
    ensures Facts(req, start, Begin(req), db, db)
  {
  }

  lemma BodyFacts(req: Request, start: Time, db: Db)
    requires WellFormed(req) && Authorized(db, req) && EmailsUnique(db.users)
    ensures Facts(req, start, Body(req), db, db)
  {
    if req.OfOrder? { OP.EnterFacts(req.order, db); }
  }

  lemma OpeningFacts(req: Request, start: Time, at: Place, s: Statement, db: Db, v: Db, answer: Answer)
    requires WellFormed(req) && EmailsUnique(db.users)
    requires at.AtAdministration? || at.AtPrelock? || at.AtShareActor? || at.AtCheckUser? || at.AtCheckPermission?
    requires Facts(req, start, at, db, v) && Ask(req, start, at) == Some(s) && Allows(s, v, answer)
    ensures v == db && Effect(s, answer, v) == v && Facts(req, start, Opening(req, at, answer), db, v)
  {
    if at.AtAdministration? && req.OfAccount? { BodyFacts(req, start, db); }
    if at.AtCheckPermission? && answer == Truth(true) { BodyFacts(req, start, db); }
  }

  lemma EndingFacts(req: Request, start: Time, rows: seq<Audit>, back: Option<Uuid>, db: Db, v: Db)
    requires Applies(req, start, db, v.(log := v.log + rows))
    requires back.Some? ==> req.OfUser? && back.value in v.users
    ensures Facts(req, start, Ending(rows, back), db, v)
  {
    if rows == [] { assert v.(log := v.log + rows) == v; }
  }

  lemma AuditFacts(req: Request, start: Time, rows: seq<Audit>, back: Option<Uuid>, db: Db, v: Db)
    requires Facts(req, start, AtAudit(rows, back), db, v)
    ensures Facts(req, start, Ending(rows[1..], back), db, v.(log := v.log + [rows[0]]))
  {
    assert v.log + rows == (v.log + [rows[0]]) + rows[1..];
    EndingFacts(req, start, rows[1..], back, db, v.(log := v.log + [rows[0]]));
  }

  lemma OrderFacts(req: Request, start: Time, p: OP.Place, s: Statement, db: Db, answer: Answer)
    requires WellFormed(req) && Facts(req, start, InOrder(p), db, db)
    requires OP.Ask(req.order, start, p) == Some(s) && Allows(s, db, answer)
    ensures Facts(req, start, Advance(req, start, InOrder(p), answer), db, Effect(s, answer, db))
  {
    hide Allows, Effect, OP.Ask, OP.Advance, OP.Facts;
    OP.StepFacts(req.order, start, p, s, db, answer);
    var next := OP.Advance(req.order, p, answer);
    if next.Record? { EndingFacts(req, start, next.rows, next.back, db, Effect(s, answer, db)); }
  }

  lemma AssetFacts(req: Request, start: Time, p: AP.Place, s: Statement, db: Db, answer: Answer)
    requires WellFormed(req) && Facts(req, start, InAsset(p), db, db)
    requires AP.Ask(req.asset, start, p) == Some(s) && Allows(s, db, answer)
    ensures Facts(req, start, Advance(req, start, InAsset(p), answer), db, Effect(s, answer, db))
  {
    AP.StepFacts(req.asset, start, p, s, db, answer);
    var next := AP.Advance(req.asset, start, p, answer);
    if next.Record? { EndingFacts(req, start, next.rows, next.back, db, Effect(s, answer, db)); }
  }

  lemma UserFacts(req: Request, start: Time, p: UP.Place, s: Statement, db: Db, answer: Answer)
    requires WellFormed(req) && Facts(req, start, InUser(p), db, db)
    requires UP.Ask(req.user, start, p) == Some(s) && Allows(s, db, answer)
    ensures Facts(req, start, Advance(req, start, InUser(p), answer), db, Effect(s, answer, db))
  {
    UP.StepFacts(req.user, start, p, s, db, answer);
    var next := UP.Advance(req.user, start, p, answer);
    if next.Record? { EndingFacts(req, start, next.rows, next.back, db, Effect(s, answer, db)); }
  }

  lemma AccountFacts(req: Request, start: Time, p: CP.Place, s: Statement, db: Db, v: Db, answer: Answer)
    requires WellFormed(req) && Facts(req, start, InAccount(p), db, v)
    requires CP.Ask(req.account, start, p) == Some(s) && Allows(s, v, answer)
    ensures Facts(req, start, Advance(req, start, InAccount(p), answer), db, Effect(s, answer, v))
  {
    CP.StepFacts(req.account, start, p, s, db, v, answer);
    var next := CP.Advance(req.account, start, p, answer);
    if next.Record? { EndingFacts(req, start, next.rows, next.back, db, Effect(s, answer, v)); }
  }

  lemma AdvanceFacts(req: Request, start: Time, at: Place, s: Statement, db: Db, v: Db, answer: Answer)
    requires WellFormed(req) && EmailsUnique(db.users)
    requires Facts(req, start, at, db, v) && Ask(req, start, at) == Some(s) && Allows(s, v, answer)
    ensures Facts(req, start, Advance(req, start, at, answer), db, Effect(s, answer, v))
  {
    hide Applies, Verdict, Authorized;
    match at
    case InOrder(p) => OrderFacts(req, start, p, s, db, answer);
    case InAsset(p) => AssetFacts(req, start, p, s, db, answer);
    case InUser(p) => UserFacts(req, start, p, s, db, answer);
    case InAccount(p) => AccountFacts(req, start, p, s, db, v, answer);
    case AtAudit(rows, back) => AuditFacts(req, start, rows, back, db, v);
    case AtReadBack(u) =>
    case _ => OpeningFacts(req, start, at, s, db, v, answer);
  }

  lemma {:induction false} SoloFacts(t: Txn, db: Db)
    requires WellFormed(t.req) && EmailsUnique(db.users) && Solo(t, db)
    ensures Facts(t.req, t.start, PlaceOf(t), db, View(t, db))
    decreases |t.answers|
  {
    if Fresh(t) {
      BeginFacts(t.req, t.start, db);
    } else {
      SoloFacts(Cut(t), db);
      AdvanceFacts(t.req, t.start, PlaceOf(Cut(t)), AskOf(Cut(t)).value, db, View(Cut(t), db), Last(t));
    }
  }

  /**
   * Running alone: a transaction that reaches its end commits exactly the outcome of a request
   * that the verdict lets through, and one that fails returns the verdict.
   */
  lemma RunAlone(t: Txn, db: Db)
    requires WellFormed(t.req) && EmailsUnique(db.users) && Solo(t, db)
    ensures PlaceOf(t) == Succeeded ==> Applies(t.req, t.start, db, View(t, db))
    ensures PlaceOf(t).Refused? ==> Verdict(t.req, db) == Some(PlaceOf(t).error)
  {
    SoloFacts(t, db);
  }
}
