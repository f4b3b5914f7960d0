/**
 * The lock discipline of the programs: which locks a transaction certainly holds at each place,
 * and that these guard every answer of a transaction that is not about to be refused.
 */
module Locking {
  import opened Types
  import opened Statements
  import opened Requests
  import opened Programs
  import opened SoloRuns
  import opened Guards
  import O = OrderRequests
  import OP = OrderProgram
  import A = AssetRequests
  import AP = AssetProgram
  import U = UserRequests
  import UP = UserProgram
  import C = AccountRequests
  import CP = AccountProgram

  /** Held from the permission check on. */
  function HeldByAll(req: Request): set<Lock> {
    if req.OfOrder? || req.OfAsset? then {UserShared(ActorOf(req))} else {Administration}
  }

  function HeldByOrder(req: O.OrderRequest, at: OP.Place): set<Lock> {
    match at
    case AtShareAsset => {}
    case AtInsert => if req.Create? then {AssetShared(req.asset)} else {}
    case AtLock => {}
    case AtReadTarget(_, _) => if req.Assign? then {OrderExclusive(req.order), UserShared(req.target)} else {}
    case AtUpdate(_) =>
      if req.Create? then {}
      else if req.Assign? then {OrderExclusive(req.order), UserShared(req.target)}
      else {OrderExclusive(req.order)}
    case _ => if req.Create? then {} else {OrderExclusive(req.order)}
  }

  function HeldByAsset(req: A.AssetRequest, at: AP.Place): set<Lock> {
    if req.Create? || at.AtInsert? || at.AtLock? then {} else {AssetExclusive(req.asset)}
  }

  function HeldByUser(req: U.UserRequest, at: UP.Place): set<Lock> {
    if req.Create? || at.AtInsert? || at.AtLock? then {} else {UserExclusive(req.user)}
  }

  function Held(req: Request, at: Place): set<Lock> {
    match at
    case AtAdministration => {}
    case AtPrelock(u, rest) => if ActorOf(req) == u || ActorOf(req) in rest then {} else HeldByAll(req)
    case AtShareActor => {}
    case InOrder(p) => if req.OfOrder? then HeldByAll(req) + HeldByOrder(req.order, p) else {}
    case InAsset(p) => if req.OfAsset? then HeldByAll(req) + HeldByAsset(req.asset, p) else {}
    case InUser(p) => if req.OfUser? then HeldByAll(req) + HeldByUser(req.user, p) else {}
    case Refused(_) => {}
    case _ => HeldByAll(req)
  }

  /** The row of the actor is there to be locked: it was read before the transaction began. */
  predicate ActorFound(req: Request, s: Statement, answer: Answer) {
    HasActor(req) && s == PrelockUser(ActorOf(req)) ==> answer == Prelocked(true)
  }

  lemma BeginHeld(req: Request)
    ensures Held(req, Begin(req)) == {}
  {
  }

  lemma OrderHeld(req: O.OrderRequest, start: Time, p: OP.Place, s: Statement, answer: Answer)
    requires OP.Ask(req, start, p) == Some(s) && OP.Advance(req, p, answer).Go?
    ensures HeldByOrder(req, OP.Advance(req, p, answer).place) <= HeldByOrder(req, p) + Takes(s, answer)
  {
  }

  lemma AssetHeld(req: A.AssetRequest, start: Time, p: AP.Place, s: Statement, answer: Answer)
    requires AP.Ask(req, start, p) == Some(s) && AP.Advance(req, start, p, answer).Go?
    ensures HeldByAsset(req, AP.Advance(req, start, p, answer).place) <= HeldByAsset(req, p) + Takes(s, answer)
  {
  }

  lemma UserHeld(req: U.UserRequest, start: Time, p: UP.Place, s: Statement, answer: Answer)
    requires UP.Ask(req, start, p) == Some(s) && UP.Advance(req, start, p, answer).Go?
    ensures HeldByUser(req, UP.Advance(req, start, p, answer).place) <= HeldByUser(req, p) + Takes(s, answer)
  {
  }

  /** The first locks go with the kind of request. */
  predicate Suits(req: Request, at: Place) {
    && (at.AtAdministration? ==> req.OfUser? || req.OfAccount?)
    && (at.AtPrelock? || at.AtShareActor? ==> req.OfOrder? || req.OfAsset?)
  }

  lemma FactsSuit(req: Request, start: Time, at: Place, db: Db, v: Db)
    requires Facts(req, start, at, db, v)
    ensures Suits(req, at)
  {
  }

  lemma OpeningHeld(req: Request, start: Time, at: Place, s: Statement, answer: Answer)
    requires at.AtAdministration? || at.AtPrelock? || at.AtShareActor? || at.AtCheckUser? || at.AtCheckPermission?
    requires Suits(req, at) && Ask(req, start, at) == Some(s) && ActorFound(req, s, answer)
    requires s.ShareUser? ==> answer.UserRow?
    requires s.LockUserAdministration? ==> answer.Done?
    ensures Held(req, Opening(req, at, answer)) <= Held(req, at) + Takes(s, answer)
  {
    if at.AtPrelock? && at.rest != [] {
      assert forall x :: x in at.rest ==> x == at.rest[0] || x in at.rest[1..];
    }
  }

  lemma InOrderHeld(req: Request, start: Time, p: OP.Place, s: Statement, answer: Answer)
    requires req.OfOrder? && OP.Ask(req.order, start, p) == Some(s)
    ensures Held(req, Advance(req, start, InOrder(p), answer)) <= Held(req, InOrder(p)) + Takes(s, answer)
  {
    if OP.Advance(req.order, p, answer).Go? { OrderHeld(req.order, start, p, s, answer); }
  }

  lemma InAssetHeld(req: Request, start: Time, p: AP.Place, s: Statement, answer: Answer)
    requires req.OfAsset? && AP.Ask(req.asset, start, p) == Some(s)
    ensures Held(req, Advance(req, start, InAsset(p), answer)) <= Held(req, InAsset(p)) + Takes(s, answer)
  {
    if AP.Advance(req.asset, start, p, answer).Go? { AssetHeld(req.asset, start, p, s, answer); }
  }

  lemma InUserHeld(req: Request, start: Time, p: UP.Place, s: Statement, answer: Answer)
    requires req.OfUser? && UP.Ask(req.user, start, p) == Some(s)
    ensures Held(req, Advance(req, start, InUser(p), answer)) <= Held(req, InUser(p)) + Takes(s, answer)
  {
    if UP.Advance(req.user, start, p, answer).Go? { UserHeld(req.user, start, p, s, answer); }
  }

  /** Going on from an answer, a transaction holds the locks of the place it comes to. */
  lemma StepHeld(req: Request, start: Time, at: Place, s: Statement, answer: Answer)
    requires Suits(req, at) && Ask(req, start, at) == Some(s) && ActorFound(req, s, answer)
    requires s.ShareUser? ==> answer.UserRow?
    requires s.LockUserAdministration? ==> answer.Done?
    ensures Held(req, Advance(req, start, at, answer)) <= Held(req, at) + Takes(s, answer)
  {
    match at
    case InOrder(p) => InOrderHeld(req, start, p, s, answer);
    case InAsset(p) => InAssetHeld(req, start, p, s, answer);
    case InUser(p) => InUserHeld(req, start, p, s, answer);
    case InAccount(_) =>
    case AtAudit(_, _) =>
    case AtReadBack(_) =>
    case _ => OpeningHeld(req, start, at, s, answer);
  }

  lemma OrderGuarded(req: O.OrderRequest, start: Time, p: OP.Place, s: Statement, db: Db, answer: Answer,
                     locks: set<Lock>)
    requires req.actor in db.users && OP.Facts(req, p, db)
    requires OP.Ask(req, start, p) == Some(s) && Allows(s, db, answer)
    requires !OP.Advance(req, p, answer).Refuse?
    requires UserShared(req.actor) in locks && HeldByOrder(req, p) + Takes(s, answer) <= locks
    ensures Guarded(locks, db, s, answer)
  {
  }

  lemma AssetGuarded(req: A.AssetRequest, start: Time, p: AP.Place, s: Statement, db: Db, answer: Answer,
                     locks: set<Lock>)
    requires AP.Facts(req, p, db)
    requires AP.Ask(req, start, p) == Some(s) && Allows(s, db, answer)
    requires !AP.Advance(req, start, p, answer).Refuse?
    requires HeldByAsset(req, p) + Takes(s, answer) <= locks
    ensures Guarded(locks, db, s, answer)
  {
  }

  lemma UserGuarded(req: U.UserRequest, start: Time, p: UP.Place, s: Statement, db: Db, answer: Answer,
                    locks: set<Lock>)
    requires UP.Facts(req, p, db)
    requires UP.Ask(req, start, p) == Some(s) && Allows(s, db, answer)
    requires !UP.Advance(req, start, p, answer).Refuse?
    requires Administration in locks && HeldByUser(req, p) + Takes(s, answer) <= locks
    ensures Guarded(locks, db, s, answer)
  {
  }

  lemma AccountGuarded(req: C.AccountRequest, start: Time, p: CP.Place, s: Statement, v: Db, answer: Answer,
                       locks: set<Lock>)
    requires CP.Ask(req, start, p) == Some(s) && Allows(s, v, answer)
    requires !CP.Advance(req, start, p, answer).Refuse?
    requires Administration in locks && Takes(s, answer) <= locks
    ensures Guarded(locks, v, s, answer)
  {
  }

  lemma OpeningGuarded(req: Request, start: Time, at: Place, s: Statement, db: Db, v: Db, answer: Answer,
                       locks: set<Lock>)
    requires at.AtAdministration? || at.AtPrelock? || at.AtShareActor? || at.AtCheckUser? || at.AtCheckPermission?
    requires Suits(req, at) && Ask(req, start, at) == Some(s) && Allows(s, v, answer)
    requires !Opening(req, at, answer).Refused?
    requires Held(req, at) + Takes(s, answer) <= locks
    ensures Guarded(locks, v, s, answer)
  {
  }

  /** The locks held guard every answer of a transaction that the answer does not get refused. */
  lemma StepGuarded(req: Request, start: Time, at: Place, s: Statement, db: Db, v: Db, answer: Answer, locks: set<Lock>)
    requires Facts(req, start, at, db, v) && Ask(req, start, at) == Some(s) && Allows(s, v, answer)
    requires !Advance(req, start, at, answer).Refused?
    requires Held(req, at) + Takes(s, answer) <= locks
    ensures Guarded(locks, v, s, answer)
  {
    hide Allows, Takes, Applies, Verdict;
    match at
    case InOrder(p) => OrderGuarded(req.order, start, p, s, db, answer, locks);
    case InAsset(p) => AssetGuarded(req.asset, start, p, s, db, answer, locks);
    case InUser(p) => UserGuarded(req.user, start, p, s, db, answer, locks);
    case InAccount(p) => AccountGuarded(req.account, start, p, s, v, answer, locks);
    case AtAudit(_, _) =>
    case AtReadBack(_) =>
    case _ =>
      FactsSuit(req, start, at, db, v);
      OpeningGuarded(req, start, at, s, db, v, answer, locks);
  }
}
