/** Bootstrapping the first administrator and seeding the demo accounts, as the commands run them. */
module Accounts {
  import opened Types
  import opened Policy
  import opened Statements
  import opened Requests
  import opened Programs
  import opened Session
  import U = UserRequests
  import C = AccountRequests
  import CP = AccountProgram

  method Bootstrap(q: Tx, name: string, email: string, hash: string) returns (e: Option<Error>)
    requires q.Valid() && q.at == Begin(q.req)
    requires q.req == OfAccount(C.Bootstrap(name, email, hash))
    modifies q
    ensures q.Valid()
    ensures q.at == match e case None => Succeeded case Some(error) => Refused(error)
  {
    hide Solo, PlaceOf, View, Effect;
    var _ := q.Query(LockUserAdministration);
    var exist := q.Query(HasAdministrator);
    if exist.holds {
      return Some(AlreadyBootstrapped);
    }
    e := InsertAdmin(q, name, email, hash);
  }

  method InsertAdmin(q: Tx, name: string, email: string, hash: string) returns (e: Option<Error>)
    requires q.Valid() && q.at == InAccount(CP.AtInsertAdmin)
    requires q.req == OfAccount(C.Bootstrap(name, email, hash))
    modifies q
    ensures q.Valid()
    ensures q.at == match e case None => Succeeded case Some(error) => Refused(error)
  {
    hide Solo, PlaceOf, View, Effect;
    var row := User(name, email, hash, Admin, true, q.start, q.start);
    var u := q.Query(InsertUser(row));
    if u == Duplicate {
      return Some(EmailConflict);
    }
    WriteAudit(q, U.Creation(None, UserBootstrapped, u.id, row), None);
    return None;
  }

  method SeedDemo(q: Tx, hashes: seq<string>) returns (e: Option<Error>)
    requires q.Valid() && q.at == Begin(q.req)
    requires q.req == OfAccount(C.SeedDemo(hashes)) && |hashes| == 3
    modifies q
    ensures q.Valid()
    ensures q.at == match e case None => Succeeded case Some(error) => Refused(error)
  {
    hide Solo, PlaceOf, View, Effect;
    var roles := [Admin, Manager, Technician];
    var emails := ["admin@gowork.dev", "manager@gowork.dev", "technician@gowork.dev"];
    var _ := q.Query(LockUserAdministration);
    var adminId: Option<Uuid> := None;
    var i := 0;
    while i < |roles|
      invariant 0 <= i <= 3 && q.Valid()
      invariant q.at == Onward(CP.NextRound(i, adminId), p => InAccount(p))
      invariant i == 0 ==> adminId == None
    {
      assert emails[i] == C.DemoEmail(i) && roles[i] == C.DemoRole(i);
      e, adminId := SeedRole(q, i, roles[i], emails[i], hashes, adminId);
      if e != None {
        return;
      }
      i := i + 1;
    }
    return None;
  }

  /** One round of the seeding loop. */
  method SeedRole(q: Tx, i: nat, role: Role, email: string, hashes: seq<string>, admin: Option<Uuid>)
    returns (e: Option<Error>, adminId: Option<Uuid>)
    requires q.Valid() && i < 3 && |hashes| == 3 && q.req == OfAccount(C.SeedDemo(hashes))
    requires q.at == InAccount(CP.AtLook(i, admin)) && (i == 0 ==> admin == None)
    requires role == C.DemoRole(i) && email == C.DemoEmail(i)
    modifies q
    ensures q.Valid()
    ensures q.at == match e
                    case None => Onward(CP.NextRound(i + 1, adminId), p => InAccount(p))
                    case Some(error) => Refused(error)
  {
    hide Solo, PlaceOf, View, Effect;
    var existing := q.Query(GetLoginUser(email));
    if existing.NoLogin? {
      e, adminId := SeedAccount(q, i, hashes, admin);
      return;
    }
    if existing.user.role != role || !existing.user.active {
      return Some(DemoConflict), admin;
    }
    return None, if i == 0 then Some(existing.id) else admin;
  }

  /** The i-th demo account is missing: create it, and announce it as bootstrap if it is the first. */
  method SeedAccount(q: Tx, i: nat, hashes: seq<string>, admin: Option<Uuid>)
    returns (e: Option<Error>, adminId: Option<Uuid>)
    requires q.Valid() && i < 3 && |hashes| == 3 && q.req == OfAccount(C.SeedDemo(hashes))
    requires q.at == InAccount(if i == 0 then CP.AtSeedAnyAdmin else CP.AtSeedInsert(i, admin))
    requires i == 0 ==> admin == None
    modifies q
    ensures q.Valid()
    ensures q.at == match e
                    case None => Onward(CP.NextRound(i + 1, adminId), p => InAccount(p))
                    case Some(error) => Refused(error)
  {
    hide Solo, PlaceOf, View, Effect;
    adminId := admin;
    if i == 0 {
      var exist := q.Query(HasAdministrator);
      if exist.holds {
        return Some(AlreadyBootstrapped), admin;
      }
    }
    var u: Option<Uuid>;
    e, u := InsertDemo(q, i, hashes, admin);
    if e == None && i == 0 {
      adminId := u;
    }
  }

  method InsertDemo(q: Tx, i: nat, hashes: seq<string>, admin: Option<Uuid>)
    returns (e: Option<Error>, id: Option<Uuid>)
    requires q.Valid() && i < 3 && |hashes| == 3 && q.req == OfAccount(C.SeedDemo(hashes))
    requires q.at == InAccount(CP.AtSeedInsert(i, admin)) && (i == 0 ==> admin == None)
    modifies q
    ensures q.Valid()
    ensures q.at == match e
                    case None => Onward(CP.NextRound(i + 1, if i == 0 then id else admin), p => InAccount(p))
                    case Some(error) => Refused(error)
  {
    hide Solo, PlaceOf, View, Effect;
    var row := C.DemoRow(i, hashes[i], q.start);
    var u := q.Query(InsertUser(row));
    if u == Duplicate {
      return Some(EmailConflict), None;
    }
    SeedInserted(q.req.account, q.start, i, admin, u.id);
    var action, actor := UserCreated, admin;
    if i == 0 {
      action, actor := UserBootstrapped, None;
    }
    AuditDemo(q, i, admin, u.id, U.Creation(actor, action, u.id, row));
    return None, Some(u.id);
  }

  method AuditDemo(q: Tx, i: nat, admin: Option<Uuid>, id: Uuid, row: Audit)
    requires q.Valid() && i < 3 && q.req.OfAccount?
    requires q.at == InAccount(CP.AtSeedAudit(i, if i == 0 then Some(id) else admin, row))
    modifies q
    ensures q.Valid()
    ensures q.at == Onward(CP.NextRound(i + 1, if i == 0 then Some(id) else admin), p => InAccount(p))
  {
    hide Solo, PlaceOf, View, Effect;
    var _ := q.Query(InsertAudit(row));
  }

  /** After its insert a seeded account is announced. */
  lemma SeedInserted(req: C.AccountRequest, start: Time, i: nat, admin: Option<Uuid>, id: Uuid)
    requires req.SeedDemo? && i < |req.hashes|
    ensures Advance(OfAccount(req), start, InAccount(CP.AtSeedInsert(i, admin)), Inserted(id)) ==
            InAccount(CP.AtSeedAudit(i, if i == 0 then Some(id) else admin,
                                     U.Creation(C.SeedActor(i, admin), C.SeedAction(i), id,
                                                C.DemoRow(i, req.hashes[i], start))))
  {
  }
}
