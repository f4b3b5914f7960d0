/**
 * Demo seeding as a whole: when it goes through, what it leaves, and that seeding its own result
 * again changes nothing.
 */
module Seeding {
  import opened Types
  import opened Requests
  import opened AccountRequests
  import P = AccountProgram
  import U = UserRequests

  /** The demo account is there, and no other account has its email. */
  ghost predicate InPlace(users: map<Uuid, User>, k: nat) {
    DemoPresent(users, k) && !DemoConflicts(users, k)
  }

  /** Seeding stops for one of two reasons only. */
  lemma SeedsUnless(db: Db, hashes: seq<string>)
    ensures AccountRequests.Verdict(SeedDemo(hashes), db) == None <==>
            && (forall k: nat :: k < 3 ==> !DemoConflicts(db.users, k))
            && (HasAdmin(db.users) ==> DemoPresent(db.users, 0))
  {
  }

  lemma DemoEmailsDiffer(j: nat, k: nat)
    requires j < k < 3
    ensures DemoEmail(j) != DemoEmail(k)
  {
    assert DemoEmail(j)[0] != DemoEmail(k)[0];
  }

  ghost predicate FirstInPlace(users: map<Uuid, User>, n: nat) {
    forall k: nat :: k < n ==> InPlace(users, k)
  }

  lemma InsertPlaces(users: map<Uuid, User>, k: nat, id: Uuid, hash: string, start: Time)
    requires k < 3 && id !in users && !DemoPresent(users, k) && FirstInPlace(users, k)
    ensures FirstInPlace(users[id := DemoRow(k, hash, start)], k + 1)
  {
    var now := users[id := DemoRow(k, hash, start)];
    forall j: nat | j < k + 1 ensures InPlace(now, j) {
      if j < k {
        assert InPlace(users, j);
        DemoEmailsDiffer(j, k);
        var u :| u in users && users[u].email == DemoEmail(j);
        assert now[u].email == DemoEmail(j);
      } else {
        assert now[id].email == DemoEmail(k);
      }
    }
  }

  /** What the first `i` rounds have done to the database. */
  ghost predicate Seeded(i: nat, db: Db, v: Db) {
    && P.SeedFrame(i, db.users, v.users) && FirstInPlace(v.users, i)
    && v.assets == db.assets && v.orders == db.orders && v.gone == db.gone
    && db.log <= v.log && |v.log| - |db.log| == |v.users| - |db.users| <= i
  }

  lemma RoundPlaces(i: nat, start: Time, hashes: seq<string>, db: Db, mid: Db, a: Option<Uuid>,
                    v: Db, admin: Option<Uuid>, id: Uuid)
    requires 1 <= i <= 3 && |hashes| == 3 && !DemoConflicts(db.users, i - 1)
    requires SeedRound(i, start, hashes, mid, a, v, admin, id) && Seeded(i - 1, db, mid)
    ensures Seeded(i, db, v)
  {
    var k := i - 1;
    P.SameAccount(k, db.users, mid.users);
    if DemoPresent(mid.users, k) {
      assert FirstInPlace(v.users, i) by { assert InPlace(mid.users, k); }
    } else {
      AddedPlaces(k, SeedActor(k, a), DemoRow(k, hashes[k], start), hashes[k], start, db, mid, v, id);
    }
  }

  lemma AddedPlaces(k: nat, actor: Option<Uuid>, row: User, hash: string, start: Time, db: Db, mid: Db, v: Db, id: Uuid)
    requires k < 3 && row == DemoRow(k, hash, start) && !DemoPresent(mid.users, k)
    requires U.Added(actor, SeedAction(k), row, mid, v, id) && Seeded(k, db, mid)
    ensures Seeded(k + 1, db, v)
  {
    P.FrameGrows(k, db.users, mid.users, id, row);
    InsertPlaces(mid.users, k, id, hash, start);
    assert v.users.Keys == mid.users.Keys + {id};
  }

  lemma {:induction false} SeededInPlace(i: nat, start: Time, hashes: seq<string>, db: Db, v: Db, admin: Option<Uuid>)
    requires i <= 3 && |hashes| == 3 && EmailsUnique(db.users)
    requires forall k: nat :: k < 3 ==> !DemoConflicts(db.users, k)
    requires SeededTo(i, start, hashes, db, v, admin)
    ensures Seeded(i, db, v)
  {
    if i != 0 {
      var mid: Db, a: Option<Uuid>, id: Uuid :|
        SeedRound(i, start, hashes, mid, a, v, admin, id) && SeededTo(i - 1, start, hashes, db, mid, a);
      SeededInPlace(i - 1, start, hashes, db, mid, a);
      RoundPlaces(i, start, hashes, db, mid, a, v, admin, id);
    }
  }

  lemma AppliesSeeded(hashes: seq<string>, start: Time, db: Db, db': Db)
    requires EmailsUnique(db.users) && Seeds(hashes, start, db, db')
    ensures Seeded(3, db, db')
  {
    var admin: Option<Uuid> :| SeededTo(3, start, hashes, db, db', admin);
    SeedsUnless(db, hashes);
    SeededInPlace(3, start, hashes, db, db', admin);
  }

  lemma {:induction false} NothingToSeed(i: nat, start: Time, hashes: seq<string>, db: Db, v: Db, admin: Option<Uuid>)
    requires i <= 3 && |hashes| == 3 && FirstInPlace(db.users, 3)
    requires SeededTo(i, start, hashes, db, v, admin)
    ensures v == db
  {
    if i != 0 {
      var mid: Db, a: Option<Uuid>, id: Uuid :|
        SeedRound(i, start, hashes, mid, a, v, admin, id) && SeededTo(i - 1, start, hashes, db, mid, a);
      NothingToSeed(i - 1, start, hashes, db, mid, a);
      assert InPlace(db.users, i - 1);
    }
  }

  ghost predicate Seeds(hashes: seq<string>, start: Time, db: Db, db': Db) {
    Applies(OfAccount(SeedDemo(hashes)), start, db, db')
  }

  ghost predicate HasDemo(users: map<Uuid, User>, k: nat) {
    exists u :: u in users && DemoAccount(users[u], k)
  }

  /**
   * Seeding that goes through leaves the three demo accounts, active and in their roles, and one
   * audit row for each account it created; it touches nothing that was there before.
   */
  lemma SeedingLeavesDemo(hashes: seq<string>, start: Time, db: Db, db': Db)
    requires EmailsUnique(db.users) && Seeds(hashes, start, db, db')
    ensures HasDemo(db'.users, 0) && HasDemo(db'.users, 1) && HasDemo(db'.users, 2)
    ensures forall u :: u in db.users ==> u in db'.users && db'.users[u] == db.users[u]
    ensures db'.assets == db.assets && db'.orders == db.orders
    ensures db.log <= db'.log && |db'.log| - |db.log| == |db'.users| - |db.users| <= 3
  {
    AppliesSeeded(hashes, start, db, db');
    forall k: nat | k < 3 ensures HasDemo(db'.users, k) {
      assert InPlace(db'.users, k);
      var u :| u in db'.users && db'.users[u].email == DemoEmail(k);
      assert DemoAccount(db'.users[u], k);
    }
  }

  /** Seeding its own result goes through again, and changes nothing at all. */
  lemma SeedingAgainIsIdle(hashes: seq<string>, start: Time, db: Db, db': Db,
                           hashes2: seq<string>, start2: Time)
    requires EmailsUnique(db.users) && Seeds(hashes, start, db, db') && |hashes2| == 3
    ensures forall db'' :: Seeds(hashes2, start2, db', db'') <==> db'' == db'
  {
    AppliesSeeded(hashes, start, db, db');
    SeedsAgain(hashes2, start2, db');
    forall db'' | Seeds(hashes2, start2, db', db'') ensures db'' == db' {
      var admin: Option<Uuid> :| SeededTo(3, start2, hashes2, db', db'', admin);
      NothingToSeed(3, start2, hashes2, db', db'', admin);
    }
  }

  lemma {:induction false} SeedsIdly(i: nat, start: Time, hashes: seq<string>, db: Db)
    returns (admin: Option<Uuid>)
    requires i <= 3 && FirstInPlace(db.users, 3) && |hashes| == 3
    ensures SeededTo(i, start, hashes, db, db, admin)
  {
    if i == 0 {
      admin := None;
    } else {
      var a := SeedsIdly(i - 1, start, hashes, db);
      assert InPlace(db.users, i - 1);
      var id :| id in db.users && db.users[id].email == DemoEmail(i - 1);
      admin := if i == 1 then Some(id) else a;
      assert SeedRound(i, start, hashes, db, a, db, admin, id);
    }
  }

  lemma SeedsAgain(hashes: seq<string>, start: Time, db: Db)
    requires FirstInPlace(db.users, 3) && |hashes| == 3
    ensures Seeds(hashes, start, db, db)
  {
    var admin := SeedsIdly(3, start, hashes, db);
    SeedsUnless(db, hashes);
    assert InPlace(db.users, 0) && InPlace(db.users, 1) && InPlace(db.users, 2);
    hide SeededTo, DemoEmail, DemoRole, DemoConflicts;
  }

  // ---- The accounts themselves

  /** The demo accounts, one by one. */
  function Account(k: nat, hashes: seq<string>, start: Time): User
    requires k < 3 && |hashes| == 3
  {
    match k
    case 0 => User("Demo ADMIN", "admin@gowork.dev", hashes[0], Admin, true, start, start)
    case 1 => User("Demo MANAGER", "manager@gowork.dev", hashes[1], Manager, true, start, start)
    case _ => User("Demo TECHNICIAN", "technician@gowork.dev", hashes[2], Technician, true, start, start)
  }

  ghost predicate HasActive(users: map<Uuid, User>, email: string, role: Role) {
    exists u :: u in users && users[u].email == email && users[u].role == role && users[u].active
  }

  /** A row that seeding writes: the administrator as a bootstrap, the others in the administrator's name. */
  predicate SeedRow(row: Audit, users: map<Uuid, User>) {
    && row.kind == UserEntity && row.id in users && row.before == None
    && var u := users[row.id];
    && row.after == Some(UserSnapshot(row.id, u.name, u.email, u.role, true, false))
    && if u.email == "admin@gowork.dev" then row.action == UserBootstrapped && row.actor == None
       else
         && row.action == UserCreated && row.actor.Some? && row.actor.value in users
         && users[row.actor.value].email == "admin@gowork.dev"
  }

  ghost predicate IsDemoAdmin(users: map<Uuid, User>, admin: Option<Uuid>) {
    admin.Some? && admin.value in users && users[admin.value].email == "admin@gowork.dev"
  }

  /** What the first `i` rounds have added, account by account and row by row. */
  ghost predicate AddedByName(i: nat, start: Time, hashes: seq<string>, db: Db, v: Db)
    requires i <= 3 && |hashes| == 3
  {
    && (forall u :: u in db.users ==> u in v.users && v.users[u] == db.users[u])
    && (forall u :: u in v.users && u !in db.users ==>
          exists k: nat :: k < i && v.users[u] == Account(k, hashes, start))
    && db.log <= v.log
    && (forall r :: |db.log| <= r < |v.log| ==> SeedRow(v.log[r], v.users) && v.log[r].id !in db.users)
  }

  /** Rows stay what they are when an account is added. */
  lemma RowStays(row: Audit, users: map<Uuid, User>, id: Uuid, u: User)
    requires SeedRow(row, users) && id !in users
    ensures SeedRow(row, users[id := u])
  {
  }

  lemma AccountAdds(k: nat, start: Time, hashes: seq<string>, db: Db, mid: Db, a: Option<Uuid>, v: Db, id: Uuid)
    requires k < 3 && |hashes| == 3 && AddedByName(k, start, hashes, db, mid) && (k > 0 ==> IsDemoAdmin(mid.users, a))
    requires U.Added(SeedActor(k, a), SeedAction(k), Account(k, hashes, start), mid, v, id)
    ensures AddedByName(k + 1, start, hashes, db, v)
    ensures k == 0 ==> IsDemoAdmin(v.users, Some(id))
    ensures k > 0 ==> IsDemoAdmin(v.users, a)
  {
    forall u | u in v.users && u !in db.users
      ensures exists l: nat :: l < k + 1 && v.users[u] == Account(l, hashes, start)
    {
      if u == id {
        assert v.users[u] == Account(k, hashes, start);
      } else {
        var l: nat :| l < k && mid.users[u] == Account(l, hashes, start);
        assert v.users[u] == Account(l, hashes, start);
      }
    }
    AccountRow(k, start, hashes, mid, a, v, id);
    forall r | |db.log| <= r < |v.log| ensures SeedRow(v.log[r], v.users) && v.log[r].id !in db.users {
      if r < |mid.log| {
        assert v.log[r] == mid.log[r];
        RowStays(mid.log[r], mid.users, id, v.users[id]);
      }
    }
  }

  lemma AccountRow(k: nat, start: Time, hashes: seq<string>, mid: Db, a: Option<Uuid>, v: Db, id: Uuid)
    requires k < 3 && |hashes| == 3 && (k > 0 ==> IsDemoAdmin(mid.users, a))
    requires U.Added(SeedActor(k, a), SeedAction(k), Account(k, hashes, start), mid, v, id)
    ensures |v.log| == |mid.log| + 1 && SeedRow(v.log[|mid.log|], v.users) && v.log[|mid.log|].id == id
  {
    assert "admin@gowork.dev"[0] != "manager@gowork.dev"[0] && "admin@gowork.dev"[0] != "technician@gowork.dev"[0];
  }

  lemma SameAccounts(k: nat, hashes: seq<string>, start: Time)
    requires k < 3 && |hashes| == 3
    ensures DemoRow(k, hashes[k], start) == Account(k, hashes, start)
  {
  }

  lemma RoundAdds(i: nat, start: Time, hashes: seq<string>, db: Db, mid: Db, a: Option<Uuid>,
                  v: Db, admin: Option<Uuid>, id: Uuid)
    requires 1 <= i <= 3 && |hashes| == 3 && SeedRound(i, start, hashes, mid, a, v, admin, id)
    requires AddedByName(i - 1, start, hashes, db, mid) && (i > 1 ==> IsDemoAdmin(mid.users, a))
    ensures AddedByName(i, start, hashes, db, v) && IsDemoAdmin(v.users, admin)
  {
    hide SeedRow;
    SameAccounts(i - 1, hashes, start);
    if !DemoPresent(mid.users, i - 1) {
      hide AddedByName, IsDemoAdmin, DemoRow, Account;
      AccountAdds(i - 1, start, hashes, db, mid, a, v, id);
    }
  }

  lemma {:induction false} SeededAdds(i: nat, start: Time, hashes: seq<string>, db: Db, v: Db, admin: Option<Uuid>)
    requires i <= 3 && |hashes| == 3 && SeededTo(i, start, hashes, db, v, admin)
    ensures AddedByName(i, start, hashes, db, v) && (i > 0 ==> IsDemoAdmin(v.users, admin))
  {
    if i != 0 {
      var mid: Db, a: Option<Uuid>, id: Uuid :|
        SeedRound(i, start, hashes, mid, a, v, admin, id) && SeededTo(i - 1, start, hashes, db, mid, a);
      SeededAdds(i - 1, start, hashes, db, mid, a);
      RoundAdds(i, start, hashes, db, mid, a, v, admin, id);
    }
  }

  /**
   * Seeding by name: the administrator, the manager and the technician are there and active, every
   * account that was not there before is one of the three with its own name and hash, and every audit
   * row it writes announces such an account in the administrator's name.
   */
  lemma SeedingByName(hashes: seq<string>, start: Time, db: Db, db': Db)
    requires EmailsUnique(db.users) && Seeds(hashes, start, db, db')
    ensures HasActive(db'.users, "admin@gowork.dev", Admin)
    ensures HasActive(db'.users, "manager@gowork.dev", Manager)
    ensures HasActive(db'.users, "technician@gowork.dev", Technician)
    ensures AddedByName(3, start, hashes, db, db')
  {
    SeedingLeavesDemo(hashes, start, db, db');
    var admin: Option<Uuid> :| SeededTo(3, start, hashes, db, db', admin);
    SeededAdds(3, start, hashes, db, db', admin);
    var a :| a in db'.users && DemoAccount(db'.users[a], 0);
    var m :| m in db'.users && DemoAccount(db'.users[m], 1);
    var t :| t in db'.users && DemoAccount(db'.users[t], 2);
  }
}
