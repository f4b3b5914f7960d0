/**
 * No reachable state is deadlocked. Locks are taken in layers: administration, user rows, asset or
 * order rows, then at most a target that was missing when the users were locked. Whoever holds a
 * lock only waits, if at all, in a deeper layer than anyone who waits for that lock.
 */
module Progress {
  import opened Types
  import opened Policy
  import opened Statements
  import opened Requests
  import opened Programs
  import opened SoloRuns
  import opened Guards
  import opened Locking
  import opened Serialization
  import opened Machine
  import Numbers
  import O = OrderRequests
  import OP = OrderProgram
  import AP = AssetProgram
  import UP = UserProgram
  import CP = AccountProgram

  /** The outermost layer in which a transaction can still have to wait. */
  function Ahead(req: Request, at: Place): nat {
    match at
    case AtAdministration => 5
    case AtPrelock(_, _) => 3
    case AtShareActor => 3
    case AtCheckUser => if req.OfUser? then 4 else 2
    case AtCheckPermission => if req.OfUser? then 4 else 2
    case InOrder(p) => if p.AtLock? || p.AtShareAsset? then 2 else if p.AtRole? || p.AtShareTarget? then 1 else 0
    case InAsset(p) => if p.AtLock? || p.AtInsert? then 2 else if p.AtAnyOrders? || p.AtDelete? then 1 else 0
    case InUser(p) => if p.AtLock? then 4 else 0
    case _ => 0
  }

  /** Who holds the lock waits, if at all, in a layer below this one. */
  function Layer(l: Lock): nat {
    match l
    case Administration => 5
    case UserShared(_) => 4
    case UserExclusive(_) => 1
    case AssetShared(_) => 2
    case AssetExclusive(_) => 2
    case OrderExclusive(_) => 2
    case CodeEntry(_) => 1
    case FreshId(_) => 6
    case FreshNumber(_) => 6
  }

  ghost predicate Layered(locks: set<Lock>, ahead: nat) {
    forall l :: l in locks ==> ahead < Layer(l)
  }

  lemma OrderAhead(req: Request, start: Time, p: OP.Place, s: Statement, answer: Answer)
    requires req.OfOrder? && OP.Ask(req.order, start, p) == Some(s)
    ensures Ahead(req, Advance(req, start, InOrder(p), answer)) <= Ahead(req, InOrder(p))
    ensures Layered(Takes(s, answer), Ahead(req, Advance(req, start, InOrder(p), answer)))
  {
  }

  lemma AssetAhead(req: Request, start: Time, p: AP.Place, s: Statement, answer: Answer)
    requires req.OfAsset? && AP.Ask(req.asset, start, p) == Some(s)
    ensures Ahead(req, Advance(req, start, InAsset(p), answer)) <= Ahead(req, InAsset(p))
    ensures Layered(Takes(s, answer), Ahead(req, Advance(req, start, InAsset(p), answer)))
  {
  }

  lemma UserAhead(req: Request, start: Time, p: UP.Place, s: Statement, answer: Answer)
    requires req.OfUser? && UP.Ask(req.user, start, p) == Some(s)
    ensures Ahead(req, Advance(req, start, InUser(p), answer)) <= Ahead(req, InUser(p))
    ensures Layered(Takes(s, answer), Ahead(req, Advance(req, start, InUser(p), answer)))
  {
  }

  lemma OpeningAhead(req: Request, start: Time, at: Place, s: Statement, answer: Answer)
    requires at.AtAdministration? || at.AtPrelock? || at.AtShareActor? || at.AtCheckUser? || at.AtCheckPermission?
    requires Suits(req, at) && Ask(req, start, at) == Some(s)
    ensures Ahead(req, Opening(req, at, answer)) <= Ahead(req, at)
    ensures Layered(Takes(s, answer), Ahead(req, Opening(req, at, answer)))
    ensures Suits(req, Opening(req, at, answer))
  {
  }

  lemma StepAhead(req: Request, start: Time, at: Place, s: Statement, answer: Answer)
    requires Suits(req, at) && Ask(req, start, at) == Some(s)
    ensures Ahead(req, Advance(req, start, at, answer)) <= Ahead(req, at)
    ensures Layered(Takes(s, answer), Ahead(req, Advance(req, start, at, answer)))
    ensures Suits(req, Advance(req, start, at, answer))
  {
    match at
    case InOrder(p) => OrderAhead(req, start, p, s, answer);
    case InAsset(p) => AssetAhead(req, start, p, s, answer);
    case InUser(p) => UserAhead(req, start, p, s, answer);
    case InAccount(_) =>
    case AtAudit(_, _) =>
    case AtReadBack(_) =>
    case _ => OpeningAhead(req, start, at, s, answer);
  }

  /** Every lock a transaction holds lies above the layers in which it can still wait. */
  lemma {:induction false} HolderLayers(t: Txn, db: Db)
    requires Solo(t, db)
    ensures Suits(t.req, PlaceOf(t))
    ensures Layered(LocksOf(t), Ahead(t.req, PlaceOf(t)))
    decreases |t.answers|
  {
    if !Fresh(t) {
      HolderLayers(Cut(t), db);
      StepAhead(t.req, t.start, PlaceOf(Cut(t)), AskOf(Cut(t)).value, Last(t));
    }
  }

  /** Whoever waits does so above the holders of the locks in its way. */
  lemma WaitsAbove(req: Request, start: Time, at: Place, s: Statement, k: Lock, l: Lock)
    requires Ask(req, start, at) == Some(s) && k in Needs(s) && Conflict(k, l)
    ensures Layer(l) <= Ahead(req, at)
  {
  }

  // ---- An answer is always at hand

  lemma {:induction false} Above(ids: set<nat>) returns (n: nat)
    ensures forall x :: x in ids ==> x < n
  {
    n := 0;
    if ids != {} {
      var x :| x in ids;
      var m := Above(ids - {x});
      n := if m <= x then x + 1 else m;
      assert forall y :: y in ids ==> y == x || y in ids - {x};
    }
  }

  /** The ids in the tables and those just generated by open transactions. */
  ghost function UsedIds(m: System, v: Db): set<Uuid> {
    v.users.Keys + v.assets.Keys + v.orders.Keys + v.gone
    + set j, l | j in m.open && l in LocksOf(m.open[j]) && l.FreshId? :: l.id
  }

  ghost predicate Unused(m: System, v: Db, id: Uuid) {
    !Known(v, id) && forall j :: j in m.open ==> FreshId(id) !in LocksOf(m.open[j])
  }

  lemma FreshIdExists(m: System, v: Db) returns (id: Uuid)
    ensures Unused(m, v, id)
  {
    id := Above(UsedIds(m, v));
    assert forall j, l :: j in m.open && l in LocksOf(m.open[j]) && l.FreshId? ==> l.id in UsedIds(m, v);
  }

  function Restamped(was: Order, next: Order, clock: Time): Order {
    was.(title := next.title, description := next.description, priority := next.priority,
         status := next.status, assignee := next.assignee, updated := clock,
         completed := if next.status == Completed then Some(clock) else None)
  }

  /** The statements that neither insert nor update have an answer in any view. */
  lemma ReadAnswer(s: Statement, v: Db) returns (answer: Answer)
    requires IsRead(s) || s.DeleteAsset? || s.InsertAudit?
    ensures Allows(s, v, answer) && RowFound(s, v, answer)
    ensures Takes(s, answer) <= Needs(s) && !answer.InsertedOrder?
  {
    match s
    case LockUserAdministration => answer := Done;
    case PrelockUser(u) => answer := Prelocked(u in v.users);
    case ShareUser(u) => answer := UserRow(Lookup(v.users, u));
    case LockUser(u) => answer := UserRow(Lookup(v.users, u));
    case GetCurrentUser(u) => answer := UserRow(Lookup(v.users, u));
    case UserHasPermission(u, p) => answer := Truth(HasPermission(v.users, u, p));
    case CountActiveAdmins => answer := Count(|ActiveAdmins(v.users)|);
    case UserHasActiveOrders(u) => answer := Truth(HasLiveOrders(v.orders, u));
    case HasAdministrator => answer := Truth(HasAdmin(v.users));
    case GetLoginUser(email) =>
      if EmailTaken(v.users, email) {
        var u :| u in v.users && v.users[u].email == email;
        answer := LoginRow(u, v.users[u]);
      } else {
        answer := NoLogin;
      }
    case ShareAsset(a) => answer := AssetRow(Lookup(v.assets, a));
    case LockAsset(a) => answer := AssetRow(Lookup(v.assets, a));
    case AssetHasOrders(a) => answer := Truth(HasOrders(v.orders, a));
    case AssetHasOpenOrders(a) => answer := Truth(HasOpenOrders(v.orders, a));
    case LockWorkOrder(o) => answer := OrderRow(Lookup(v.orders, o));
    case DeleteAsset(_, _) => answer := Done;
    case InsertAudit(_) => answer := Done;
  }

  lemma UpdateAnswer(s: Statement, v: Db, clock: Time) returns (answer: Answer)
    requires s.UpdateUser? || s.UpdateAsset? || s.UpdateWorkOrder?
    requires Timed(v, clock)
    ensures Allows(s, v, answer) && Stamped(s, answer, clock, clock)
    ensures Takes(s, answer) == {} && !answer.InsertedOrder?
  {
    match s
    case UpdateUser(u, n) =>
      answer :=
        if u !in v.users then UserRow(None)
        else if EmailTakenByOther(v.users, u, n.email) then Duplicate
        else UserRow(Some(v.users[u].(name := n.name, email := n.email, hash := n.hash, active := n.active,
                                      updated := clock)));
    case UpdateAsset(a, n) =>
      answer :=
        if a !in v.assets then AssetRow(None)
        else AssetRow(Some(v.assets[a].(name := n.name, category := n.category, location := n.location,
                                        status := n.status, updated := clock)));
    case UpdateWorkOrder(o, n) =>
      answer :=
        if o !in v.orders then OrderRow(None)
        else OrderRow(Some(Restamped(v.orders[o], n, clock)));
  }

  lemma InsertAnswer(s: Statement, v: Db, m: System, id: Uuid) returns (answer: Answer)
    requires s.InsertUser? || s.InsertAsset? || s.InsertWorkOrder?
    requires Unused(m, v, id) && NumberFree(v.orders, m.sequence + 1)
    ensures Allows(s, v, answer)
    ensures Takes(s, answer) <= Needs(s) + {FreshId(id), FreshNumber(m.sequence + 1)}
    ensures s.InsertWorkOrder? <==> answer.InsertedOrder?
    ensures answer.InsertedOrder? ==> answer.number == m.sequence + 1
  {
    match s
    case InsertUser(row) => answer := if EmailTaken(v.users, row.email) then Duplicate else Inserted(id);
    case InsertAsset(row) => answer := if CodeTaken(v.assets, row.code) then Duplicate else Inserted(id);
    case InsertWorkOrder(row) =>
      answer := InsertedOrder(id, m.sequence + 1, 2026, row.(number := Numbers.Format(2026, m.sequence + 1)));
  }

  ghost predicate CanExecute(m: System, id: Id) {
    exists m': System, answer: Answer :: Executes(m, m', id, answer)
  }

  lemma GrantsMore(m: System, id: Id, locks: set<Lock>, spare: Uuid, v: Db)
    requires Inv(m) && Grantable(m, id, locks) && Unused(m, v, spare)
    ensures Grantable(m, id, locks + {FreshId(spare), FreshNumber(m.sequence + 1)})
  {
    hide Steady, Solo, View;
    forall j | j in m.open && j != id
      ensures Apart(locks + {FreshId(spare), FreshNumber(m.sequence + 1)}, LocksOf(m.open[j]))
    {
      assert TxnOk(m.open[j], m);
      assert Apart(locks, LocksOf(m.open[j]));
    }
  }

  lemma GrantsLess(m: System, id: Id, locks: set<Lock>, less: set<Lock>)
    requires Grantable(m, id, locks) && less <= locks
    ensures Grantable(m, id, less)
  {
    forall j | j in m.open && j != id ensures Apart(less, LocksOf(m.open[j])) {
      assert Apart(locks, LocksOf(m.open[j]));
    }
  }

  lemma AnswerAtHand(m: System, s: Statement, v: Db, spare: Uuid) returns (answer: Answer)
    requires Timed(v, m.clock) && NumberFree(v.orders, m.sequence + 1) && Unused(m, v, spare)
    ensures Allows(s, v, answer) && RowFound(s, v, answer)
    ensures Stamped(s, answer, m.clock, m.clock)
    ensures Takes(s, answer) <= Needs(s) + {FreshId(spare), FreshNumber(m.sequence + 1)}
    ensures Drawn(s, answer, m.sequence, if answer.InsertedOrder? then m.sequence + 1 else m.sequence)
  {
    if s.InsertUser? || s.InsertAsset? || s.InsertWorkOrder? {
      answer := InsertAnswer(s, v, m, spare);
    } else if s.UpdateUser? || s.UpdateAsset? || s.UpdateWorkOrder? {
      answer := UpdateAnswer(s, v, m.clock);
    } else {
      answer := ReadAnswer(s, v);
    }
  }

  /** The next sequence value is free in the transaction's view, and no row is stamped later than now. */
  lemma ViewReady(m: System, t: Txn)
    requires Timed(m.db, m.clock) && NumbersBelow(m.db.orders, m.sequence)
    requires TxnOk(t, m) && AskOf(t).Some?
    ensures Timed(View(t, m.db), m.clock) && NumberFree(View(t, m.db).orders, m.sequence + 1)
  {
    NextNumberUnused(t, m);
    ViewTimed(t, m.db, m.clock);
  }

  /** A statement whose locks are granted can run. */
  lemma GrantedExecutes(m: System, id: Id)
    requires Inv(m) && id in m.open && AskOf(m.open[id]).Some?
    requires Grantable(m, id, Needs(AskOf(m.open[id]).value))
    ensures CanExecute(m, id)
  {
    var t := m.open[id];
    var s, v := AskOf(t).value, View(t, m.db);
    ViewReady(m, t);
    var spare := FreshIdExists(m, v);
    var answer := AnswerAtHand(m, s, v, spare);
    GrantsMore(m, id, Needs(s), spare, v);
    GrantsLess(m, id, Needs(s) + {FreshId(spare), FreshNumber(m.sequence + 1)}, Needs(s) + Takes(s, answer));
    var m' := m.(open := m.open[id := Extend(t, answer)],
                 sequence := if answer.InsertedOrder? then m.sequence + 1 else m.sequence);
    assert Executes(m, m', id, answer);
  }

  // ---- Someone can always move

  ghost predicate CanMove(m: System, id: Id) {
    && id in m.open
    && (CanExecute(m, id)
        || (exists m': System :: Commits(m, m', id))
        || (exists m': System, e: Error :: Returns(m, m', id, e)))
  }

  /** A transaction without a further statement has succeeded or been refused. */
  lemma EndsProperly(t: Txn, db: Db)
    requires WellFormed(t.req) && EmailsUnique(db.users) && Solo(t, db) && AskOf(t) == None
    ensures PlaceOf(t) == Succeeded || PlaceOf(t).Refused?
  {
    hide Solo, View, Applies, Verdict;
    SoloFacts(t, db);
  }

  lemma EndedMoves(m: System, id: Id)
    requires Inv(m) && id in m.open && AskOf(m.open[id]) == None
    ensures CanMove(m, id)
  {
    var t := m.open[id];
    assert TxnOk(t, m);
    if !PlaceOf(t).Refused? { EndsProperly(t, m.db); }
    if PlaceOf(t) == Succeeded {
      assert Commits(m, m.(db := View(t, m.db), open := m.open - {id}, done := m.done + [t]), id);
    } else {
      assert Returns(m, m.(open := m.open - {id}), id, PlaceOf(t).error);
    }
  }

  /** Following the holders of the locks in the way ends at a transaction that can move. */
  lemma SomeoneMoves(m: System, id: Id) returns (mover: Id)
    requires Inv(m) && id in m.open
    ensures CanMove(m, mover)
    decreases if PlaceOf(m.open[id]).Refused? then 0 else 1 + Ahead(m.open[id].req, PlaceOf(m.open[id]))
  {
    var t := m.open[id];
    if AskOf(t) == None {
      EndedMoves(m, id);
      mover := id;
    } else if Grantable(m, id, Needs(AskOf(t).value)) {
      GrantedExecutes(m, id);
      mover := id;
    } else {
      var j :| j in m.open && j != id && !Apart(Needs(AskOf(t).value), LocksOf(m.open[j]));
      HolderIsBelow(m, id, j);
      mover := SomeoneMoves(m, j);
    }
  }

  lemma HolderIsBelow(m: System, id: Id, j: Id)
    requires Inv(m) && id in m.open && j in m.open && AskOf(m.open[id]).Some?
    requires !Apart(Needs(AskOf(m.open[id]).value), LocksOf(m.open[j]))
    ensures !PlaceOf(m.open[id]).Refused?
    ensures PlaceOf(m.open[j]).Refused?
            || Ahead(m.open[j].req, PlaceOf(m.open[j])) < Ahead(m.open[id].req, PlaceOf(m.open[id]))
  {
    var t, u := m.open[id], m.open[j];
    AskingIsSteady(t, m.db);
    var k, l :| k in Needs(AskOf(t).value) && l in LocksOf(u) && Conflict(k, l);
    WaitsAbove(t.req, t.start, PlaceOf(t), AskOf(t).value, k, l);
    if !PlaceOf(u).Refused? {
      assert TxnOk(u, m);
      HolderLayers(u, m.db);
    }
  }

  /** No reachable state with open transactions is deadlocked. */
  lemma NoDeadlock(trace: seq<System>, i: nat)
    requires Run(trace) && i < |trace| && trace[i].open != map[]
    ensures exists id: Id :: CanMove(trace[i], id)
  {
    RunInv(trace, i);
    var id :| id in trace[i].open;
    var mover := SomeoneMoves(trace[i], id);
  }

  // ---- Every transaction ends

  function RoundsLeft(k: nat): nat {
    if k < 3 then 5 * (3 - k) else 0
  }

  /** How many statements a transaction can still issue. */
  function Road(at: Place): nat {
    match at
    case AtAdministration => 22
    case AtPrelock(_, rest) => 22 + |rest|
    case AtShareActor => 22
    case AtCheckUser => 21
    case AtCheckPermission => 20
    case InOrder(p) =>
      (match p
       case AtShareAsset => 5
       case AtInsert => 4
       case AtLock => 8
       case AtRole(_) => 7
       case AtShareTarget(_) => 6
       case AtReadTarget(_, _) => 5
       case AtUpdate(_) => 4)
    case InAsset(p) => if p.AtLock? then 6 else if p.AtOpenOrders? || p.AtAnyOrders? then 5 else 4
    case InUser(p) =>
      (match p
       case AtInsert => 3
       case AtLock => 8
       case AtRead(_) => 7
       case AtCountAdmins(_, _) => 6
       case AtActiveOrders(_, _, _) => 5
       case AtUpdate(_, _) => 4)
    case InAccount(p) =>
      (match p
       case AtAnyAdmin => 4
       case AtInsertAdmin => 3
       case AtLook(k, _) => RoundsLeft(k) + 4
       case AtSeedAnyAdmin => RoundsLeft(0) + 3
       case AtSeedInsert(k, _) => RoundsLeft(k) + 2
       case AtSeedAudit(k, _, _) => RoundsLeft(k) + 1)
    case AtAudit(rows, _) => |rows| + 1
    case AtReadBack(_) => 1
    case _ => 0
  }

  lemma OrderRoad(req: Request, start: Time, p: OP.Place, s: Statement, answer: Answer)
    requires req.OfOrder? && OP.Ask(req.order, start, p) == Some(s)
    ensures Road(Advance(req, start, InOrder(p), answer)) < Road(InOrder(p))
  {
    if p.AtUpdate? && answer.OrderRow? && answer.orderRow.Some? {
      O.RowsLength(req.order.actor, req.order.order, O.Actions(req.order, p.was), p.was, answer.orderRow.value);
    }
  }

  lemma AssetRoad(req: Request, start: Time, p: AP.Place, s: Statement, answer: Answer)
    requires req.OfAsset? && AP.Ask(req.asset, start, p) == Some(s)
    ensures Road(Advance(req, start, InAsset(p), answer)) < Road(InAsset(p))
  {
  }

  lemma UserRoad(req: Request, start: Time, p: UP.Place, s: Statement, answer: Answer)
    requires req.OfUser? && UP.Ask(req.user, start, p) == Some(s)
    ensures Road(Advance(req, start, InUser(p), answer)) < Road(InUser(p))
  {
  }

  lemma AccountRoad(req: Request, start: Time, p: CP.Place, s: Statement, answer: Answer)
    requires req.OfAccount? && CP.Ask(req.account, start, p) == Some(s)
    ensures Road(Advance(req, start, InAccount(p), answer)) < Road(InAccount(p))
  {
  }

  lemma StepRoad(req: Request, start: Time, at: Place, s: Statement, answer: Answer)
    requires Ask(req, start, at) == Some(s)
    ensures Road(Advance(req, start, at, answer)) < Road(at)
  {
    match at
    case InOrder(p) => OrderRoad(req, start, p, s, answer);
    case InAsset(p) => AssetRoad(req, start, p, s, answer);
    case InUser(p) => UserRoad(req, start, p, s, answer);
    case InAccount(p) => AccountRoad(req, start, p, s, answer);
    case _ =>
  }

  /** However its statements interleave with others, a transaction ends within 23 statements. */
  lemma {:induction false} TransactionsEnd(t: Txn, db: Db)
    requires Solo(t, db)
    ensures |t.answers| + Road(PlaceOf(t)) <= 23
    decreases |t.answers|
  {
    if !Fresh(t) {
      TransactionsEnd(Cut(t), db);
      StepRoad(t.req, t.start, PlaceOf(Cut(t)), AskOf(Cut(t)).value, Last(t));
    }
  }

  /** In a run, too: whatever the interleaving, no open transaction has got more than 23 answers. */
  lemma RunsEnd(trace: seq<System>, i: nat, id: Id)
    requires Run(trace) && i < |trace| && id in trace[i].open
    requires !PlaceOf(trace[i].open[id]).Refused?
    ensures |trace[i].open[id].answers| + Road(PlaceOf(trace[i].open[id])) <= 23
  {
    RunInv(trace, i);
    assert TxnOk(trace[i].open[id], trace[i]);
    TransactionsEnd(trace[i].open[id], trace[i].db);
  }

  // ---- The order of the first locks

  /** The users whose rows the transaction has prelocked so far, in that order. */
  function UsersAsked(t: Txn): seq<Uuid>
    decreases |t.answers|
  {
    if Fresh(t) then []
    else match AskOf(Cut(t))
      case Some(PrelockUser(u)) => UsersAsked(Cut(t)) + [u]
      case _ => UsersAsked(Cut(t))
  }

  /** Actor and target in ascending order. */
  function Ascending(req: Request): seq<Uuid> {
    match req
    case OfOrder(Assign(actor, _, target)) => if target < actor then [target, actor] else [actor, target]
    case OfOrder(Patch(actor, _, _)) => [actor]
    case OfOrder(Move(actor, _, _)) => [actor]
    case OfAsset(a) => [a.actor]
    case _ => []
  }

  predicate PrelockedSoFar(req: Request, at: Place, ids: seq<Uuid>) {
    match at
    case AtPrelock(u, rest) => ids + [u] + rest == Ascending(req)
    case AtShareActor => ids == Ascending(req)
    case AtAdministration => ids == Ascending(req)
    case Refused(_) => true
    case _ => ids == Ascending(req)
  }

  lemma StepPrelocks(req: Request, start: Time, at: Place, s: Statement, answer: Answer, ids: seq<Uuid>)
    requires Suits(req, at) && Ask(req, start, at) == Some(s) && PrelockedSoFar(req, at, ids)
    ensures PrelockedSoFar(req, Advance(req, start, at, answer), if s.PrelockUser? then ids + [s.u] else ids)
  {
    if at.AtPrelock? {
      if at.rest == [] {
        assert ids + [at.u] + at.rest == ids + [at.u];
      } else {
        assert ids + [at.u] + at.rest == (ids + [at.u]) + [at.rest[0]] + at.rest[1..];
      }
    }
  }

  lemma {:induction false} PrelocksInOrder(t: Txn, db: Db)
    requires Solo(t, db)
    ensures PrelockedSoFar(t.req, PlaceOf(t), UsersAsked(t))
    decreases |t.answers|
  {
    if !Fresh(t) {
      PrelocksInOrder(Cut(t), db);
      HolderLayers(Cut(t), db);
      StepPrelocks(t.req, t.start, PlaceOf(Cut(t)), AskOf(Cut(t)).value, Last(t), UsersAsked(Cut(t)));
    }
  }

  /**
   * Before a transaction asks for an order or an asset row, it has asked for the user rows it needs,
   * all of them, in ascending order of their ids, and for no others.
   */
  lemma UsersFirst(t: Txn, db: Db)
    requires Solo(t, db) && AskOf(t).Some? && (AskOf(t).value.LockWorkOrder? || AskOf(t).value.LockAsset?)
    ensures UsersAsked(t) == Ascending(t.req)
    ensures forall i, j :: 0 <= i < j < |UsersAsked(t)| ==> UsersAsked(t)[i] <= UsersAsked(t)[j]
  {
    PrelocksInOrder(t, db);
  }
}
