/**
 * The service as one caller sees it: requests come in one after the other, each runs its
 * transaction on the tables, and the transaction's view is committed or thrown away.
 */
module Server {
  import opened Types
  import opened Policy
  import opened Requests
  import opened Programs
  import opened SoloRuns
  import opened SerialRuns
  import opened Machine
  import opened Session
  import WorkOrders
  import Assets
  import Users
  import Accounts

  datatype Reply = Accepted | Failed(error: Error)

  /** Runs the transaction of a request. */
  method Dispatch(q: Tx) returns (e: Option<Error>)
    requires q.Valid() && q.at == Begin(q.req) && WellFormed(q.req)
    modifies q
    ensures q.Valid()
    ensures q.at == match e case None => Succeeded case Some(error) => Refused(error)
  {
    match q.req
    case OfOrder(_) => e := DispatchOrder(q);
    case OfAsset(Create(actor, code, name, category, location, status)) =>
      e := Assets.Create(q, actor, code, name, category, location, status);
    case OfAsset(Patch(actor, id, changes)) => e := Assets.Patch(q, actor, id, changes);
    case OfAsset(Delete(actor, id)) => e := Assets.Delete(q, actor, id);
    case OfUser(Create(actor, name, email, hash, role)) => e := Users.Create(q, actor, name, email, hash, role);
    case OfUser(Patch(actor, id, changes)) => e := Users.Patch(q, actor, id, changes);
    case OfAccount(Bootstrap(name, email, hash)) => e := Accounts.Bootstrap(q, name, email, hash);
    case OfAccount(SeedDemo(hashes)) => e := Accounts.SeedDemo(q, hashes);
  }

  method DispatchOrder(q: Tx) returns (e: Option<Error>)
    requires q.Valid() && q.at == Begin(q.req) && q.req.OfOrder?
    modifies q
    ensures q.Valid()
    ensures q.at == match e case None => Succeeded case Some(error) => Refused(error)
  {
    match q.req.order
    case Create(actor, asset, title, description, priority) =>
      e := WorkOrders.Create(q, actor, asset, title, description, priority);
    case Patch(actor, id, _) => e := WorkOrders.Mutate(q, actor, id, CanUpdateOrder, None);
    case Assign(actor, id, target) => e := WorkOrders.Mutate(q, actor, id, CanAssignOrder, Some(target));
    case Move(actor, id, to) => e := WorkOrders.Mutate(q, actor, id, StatusPermission(to), None);
  }

  /** A transaction at its end has done what its request asks for, or is refused for that reason. */
  lemma Ended(t: Txn, db: Db)
    requires WellFormed(t.req) && Good(db) && Solo(t, db)
    ensures PlaceOf(t) == Succeeded ==> Applies(t.req, t.start, db, View(t, db)) && Good(View(t, db))
    ensures PlaceOf(t).Refused? ==> Verdict(t.req, db) == Some(PlaceOf(t).error)
  {
    RunAlone(t, db);
    if PlaceOf(t) == Succeeded { AppliesGood(t.req, t.start, db, View(t, db)); }
  }

  class Service {
    const year: nat
    var db: Db
    var clock: Time
    var sequence: nat
    var spare: Uuid

    ghost predicate Valid()
      reads this
    {
      Good(db) && year < 10000 && Behind(db, clock, sequence, spare)
    }

    constructor (year: nat)
      requires year < 10000
      ensures Valid() && db == EMPTY
    {
      EmptyGood();
      this.year, db, clock, sequence, spare := year, EMPTY, 0, 0, 0;
    }

    /** One request at time `now`: it goes through with its outcome, or is refused and changes nothing. */
    method Submit(req: Request, now: Time) returns (reply: Reply)
      requires Valid() && clock <= now
      modifies this
      ensures Valid() && now <= clock
      ensures match reply
              case Accepted => Applies(req, now, old(db), db)
              case Failed(e) =>
                db == old(db) && (Verdict(req, old(db)) == Some(e) || (e == Invalid && !WellFormed(req)))
    {
      StillTimed(db, clock, now);
      clock := now;
      if HasActor(req) {
        var e := Check(db.users, ActorOf(req), PermissionOf(req));
        if e.Some? {
          return Failed(e.value);
        }
      }
      if !WellFormed(req) {
        return Failed(Invalid);
      }
      reply := Transact(req);
    }

    method Transact(req: Request) returns (reply: Reply)
      requires Valid() && WellFormed(req)
      modifies this
      ensures Valid() && old(clock) <= clock
      ensures match reply
              case Accepted => Applies(req, old(clock), old(db), db)
              case Failed(e) => db == old(db) && Verdict(req, old(db)) == Some(e)
    {
      var q, e := Attempt(req);
      clock, sequence, spare := q.clock, q.sequence, q.spare;
      if e.Some? {
        return Failed(e.value);
      }
      db := q.Tables();
      return Accepted;
    }

    /** Runs the transaction of a request, up to its commit or rollback. */
    method Attempt(req: Request) returns (q: Tx, e: Option<Error>)
      requires Valid() && WellFormed(req)
      ensures q.Supplied(db) && q.Supplied(q.Tables()) && q.start == clock && q.year == year
      ensures match e
              case None => Applies(req, clock, db, q.Tables()) && Good(q.Tables())
              case Some(error) => Verdict(req, db) == Some(error)
    {
      q := new Tx(db, req, clock, sequence, spare, year);
      e := Dispatch(q);
      Ended(q.txn, db);
    }
  }
}
