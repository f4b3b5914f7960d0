/**
 * Transactions run one at a time, each alone, from an empty database: the runs that interleaving
 * must not be told apart from, and everything that holds along them.
 */
module SerialRuns {
  import opened Types
  import opened Policy
  import opened Requests
  import opened Programs
  import opened SoloRuns
  import opened Safety
  import opened Evolution
  import opened History
  import L = Ledger
  import O = OrderRequests
  import C = AccountRequests

  /** The database that the transactions leave when each runs alone, one after the other. */
  function Replay(done: seq<Txn>): Db {
    if done == [] then EMPTY else View(done[|done| - 1], Replay(done[..|done| - 1]))
  }

  /** Each of the transactions runs alone, from its first statement to its successful end. */
  ghost predicate Serial(done: seq<Txn>) {
    done == [] ||
    (var t, before := done[|done| - 1], done[..|done| - 1];
     && Serial(before)
     && WellFormed(t.req) && Solo(t, Replay(before)) && PlaceOf(t) == Succeeded)
  }

  /** All that is kept by every request that goes through. */
  ghost predicate Good(db: Db) {
    Sound(db) && Told(db) && L.Counted(db) && L.RowsOk(db)
  }

  lemma EmptyGood()
    ensures Good(EMPTY)
  {
    EmptySound();
    assert forall kind, id :: LastRow(EMPTY.log, kind, id) == None;
    assert forall o :: L.Moves(EMPTY.log, o) == 0;
  }

  lemma AppliesGood(req: Request, start: Time, db: Db, db': Db)
    requires Good(db) && Applies(req, start, db, db')
    ensures Good(db')
  {
    AppliesSound(req, start, db, db');
    AppliesTold(req, start, db, db');
    L.AppliesCounted(req, start, db, db');
    AppliesEvolves(req, start, db, db');
    L.RowsStayOk(req, start, db, db');
  }

  /** The k-th transaction of a serial run leaves the outcome of its request, all rules kept. */
  lemma {:induction false} SerialApplies(done: seq<Txn>, k: nat)
    requires Serial(done) && k <= |done|
    ensures Good(Replay(done[..k]))
    ensures k < |done| ==> Applies(done[k].req, done[k].start, Replay(done[..k]), Replay(done[..k + 1]))
    decreases |done|, k
  {
    if k < |done| {
      var front := done[..|done| - 1];
      if k < |front| {
        assert front[..k] == done[..k] && front[..k + 1] == done[..k + 1] && front[k] == done[k];
        SerialApplies(front, k);
      } else {
        assert done[..k] == front && done[..k + 1] == done && front[..k] == front;
        SerialApplies(front, k);
        RunAlone(done[k], Replay(front));
      }
    } else if done == [] {
      EmptyGood();
      assert done[..k] == [];
    } else {
      var front := done[..|done| - 1];
      assert done[..k] == done;
      assert front[..|front|] == front;
      SerialApplies(front, |front|);
      RunAlone(done[|done| - 1], Replay(front));
      AppliesGood(done[|done| - 1].req, done[|done| - 1].start, Replay(front), Replay(done));
    }
  }

  lemma GoodIsSound(db: Db)
    requires Good(db)
    ensures Sound(db) && db.gone !! db.assets.Keys
  {
  }

  /** From one moment of a serial run to a later one the database only evolves. */
  lemma {:induction false} SerialEvolves(done: seq<Txn>, k: nat, l: nat)
    requires Serial(done) && k <= l <= |done|
    ensures Evolves(Replay(done[..k]), Replay(done[..l]))
    decreases l
  {
    hide Serial, Replay, Applies, Evolves, Good, Sound;
    if k < l {
      SerialEvolves(done, k, l - 1);
      SerialApplies(done, l - 1);
      SerialApplies(done, l);
      GoodIsSound(Replay(done[..l - 1]));
      GoodIsSound(Replay(done[..l]));
      AppliesEvolves(done[l - 1].req, done[l - 1].start, Replay(done[..l - 1]), Replay(done[..l]));
      EvolvesTransitive(Replay(done[..k]), Replay(done[..l - 1]), Replay(done[..l]));
    } else {
      EvolvesReflexive(Replay(done[..k]));
    }
  }

  // ---- No lost updates

  datatype Field = Title | Description | Urgency

  datatype Value = Text(text: string) | Level(level: Priority)

  function ValueOf(w: Order, f: Field): Value {
    match f
    case Title => Text(w.title)
    case Description => Text(w.description)
    case Urgency => Level(w.priority)
  }

  /** The value that a patch supplies for a field of an order. */
  function Supplied(req: Request, o: Uuid, f: Field): Option<Value> {
    if !req.OfOrder? || !req.order.Patch? || req.order.order != o then None
    else
      var c := req.order.changes;
      match f
      case Title => if c.title.Some? then Some(Text(c.title.value)) else None
      case Description => if c.description.Some? then Some(Text(c.description.value)) else None
      case Urgency => if c.priority.Some? then Some(Level(c.priority.value)) else None
  }

  lemma SuppliedIsStored(req: Request, start: Time, db: Db, db': Db, o: Uuid, f: Field)
    requires Applies(req, start, db, db') && Supplied(req, o, f).Some?
    ensures o in db'.orders && ValueOf(db'.orders[o], f) == Supplied(req, o, f).value
  {
  }

  lemma UnsuppliedStays(req: Request, start: Time, db: Db, db': Db, o: Uuid, f: Field)
    requires Applies(req, start, db, db') && o in db.orders && Supplied(req, o, f) == None
    ensures o in db'.orders && ValueOf(db'.orders[o], f) == ValueOf(db.orders[o], f)
  {
    hide Applies;
    ChangesComeFromRequests(req, start, db, db', o);
  }

  /** A patched field keeps its value until a later patch supplies that same field. */
  lemma {:induction false} PatchSurvives(done: seq<Txn>, k: nat, l: nat, o: Uuid, f: Field)
    requires Serial(done) && k < l <= |done|
    requires Supplied(done[k].req, o, f).Some?
    requires forall j :: k < j < l ==> Supplied(done[j].req, o, f) == None
    ensures o in Replay(done[..l]).orders
    ensures ValueOf(Replay(done[..l]).orders[o], f) == Supplied(done[k].req, o, f).value
    decreases l
  {
    hide Serial, Replay, Applies, Supplied, ValueOf, Good;
    var before, after := Replay(done[..l - 1]), Replay(done[..l]);
    SerialApplies(done, l - 1);
    if l == k + 1 {
      SuppliedIsStored(done[k].req, done[k].start, before, after, o, f);
    } else {
      PatchSurvives(done, k, l - 1, o, f);
      UnsuppliedStays(done[l - 1].req, done[l - 1].start, before, after, o, f);
    }
  }

  // ---- Assignments

  predicate Assigns(req: Request, o: Uuid) {
    req.OfOrder? && req.order.Assign? && req.order.order == o
  }

  function AssigneeOf(db: Db, o: Uuid): Option<Uuid> {
    if o in db.orders then db.orders[o].assignee else None
  }

  /** The target of the last assignment of an order among the first `l` transactions. */
  function LastAssigned(done: seq<Txn>, l: nat, o: Uuid): Option<Uuid>
    requires l <= |done|
  {
    if l == 0 then None
    else if Assigns(done[l - 1].req, o) then Some(done[l - 1].req.order.target)
    else LastAssigned(done, l - 1, o)
  }

  lemma AssignmentStored(req: Request, start: Time, db: Db, db': Db, o: Uuid)
    requires Applies(req, start, db, db')
    ensures AssigneeOf(db', o) == if Assigns(req, o) then Some(req.order.target) else AssigneeOf(db, o)
  {
    if o in db.orders {
      ChangesComeFromRequests(req, start, db, db', o);
      hide Applies;
    } else if req.OfAccount? && req.account.SeedDemo? {
      var admin: Option<Uuid> :| C.SeededTo(3, start, req.account.hashes, db, db', admin);
      SeedingKeepsOrders(3, start, req.account.hashes, db, db', admin);
    }
  }

  lemma NothingAssigned(done: seq<Txn>, o: Uuid)
    ensures AssigneeOf(Replay(done[..0]), o) == None
  {
    assert done[..0] == [];
  }

  /** An order is assigned to whom the last committed assignment of it names, and to nobody without one. */
  lemma {:induction false} AssignmentsStick(done: seq<Txn>, l: nat, o: Uuid)
    requires Serial(done) && l <= |done|
    ensures AssigneeOf(Replay(done[..l]), o) == LastAssigned(done, l, o)
  {
    hide Serial, Replay, Applies, Good, AssigneeOf, Assigns;
    if l == 0 {
      NothingAssigned(done, o);
    } else {
      AssignmentsStick(done, l - 1, o);
      SerialApplies(done, l - 1);
      AssignmentStored(done[l - 1].req, done[l - 1].start, Replay(done[..l - 1]), Replay(done[..l]), o);
    }
  }

  // ---- Completions

  predicate Completes(req: Request, o: Uuid) {
    req.OfOrder? && req.order.Move? && req.order.order == o && req.order.to == Completed
  }

  lemma CompletionEnds(req: Request, start: Time, db: Db, db': Db, o: Uuid)
    requires Applies(req, start, db, db') && Completes(req, o)
    ensures o in db.orders && !Terminal(db.orders[o].status)
    ensures o in db'.orders && Terminal(db'.orders[o].status)
  {
    assert O.Changed(req.order, db, db');
  }

  lemma TerminalStays(db: Db, db': Db, o: Uuid)
    requires Evolves(db, db') && o in db.orders && Terminal(db.orders[o].status)
    ensures o in db'.orders && db'.orders[o] == db.orders[o]
  {
  }

  /** An order is completed at most once. */
  lemma OneCompletion(done: seq<Txn>, k: nat, l: nat, o: Uuid)
    requires Serial(done) && k < l < |done|
    ensures !(Completes(done[k].req, o) && Completes(done[l].req, o))
  {
    if Completes(done[k].req, o) && Completes(done[l].req, o) {
      var after, before := Replay(done[..k + 1]), Replay(done[..l]);
      SerialApplies(done, k);
      CompletionEnds(done[k].req, done[k].start, Replay(done[..k]), after, o);
      SerialApplies(done, l);
      CompletionEnds(done[l].req, done[l].start, before, Replay(done[..l + 1]), o);
      SerialEvolves(done, k + 1, l);
      TerminalStays(after, before, o);
    }
  }

  /** Once a completion of an order is among the transactions, the order is terminal. */
  lemma CompletedIsTerminal(done: seq<Txn>, k: nat, o: Uuid)
    requires Serial(done) && k < |done| && Completes(done[k].req, o)
    ensures o in Replay(done).orders && Terminal(Replay(done).orders[o].status)
  {
    hide Serial, Replay, Applies, Evolves, Good;
    assert done[..|done|] == done;
    SerialApplies(done, k);
    CompletionEnds(done[k].req, done[k].start, Replay(done[..k]), Replay(done[..k + 1]), o);
    SerialEvolves(done, k + 1, |done|);
    TerminalStays(Replay(done[..k + 1]), Replay(done), o);
  }

  /** The request changes an existing order. */
  predicate Touches(req: Request, o: Uuid) {
    req.OfOrder? && !req.order.Create? && req.order.order == o
  }

  predicate MaySee(req: Request, db: Db, o: Uuid)
    requires Touches(req, o) && o in db.orders
  {
    && HasPermission(db.users, req.order.actor, PermissionOf(req))
    && AssignedScope(db.users[req.order.actor].role, req.order.actor, db.orders[o].assignee)
  }

  /** What is left to say to a request on a terminal order. */
  lemma TerminalVerdict(req: Request, db: Db, o: Uuid)
    requires Touches(req, o) && o in db.orders && Terminal(db.orders[o].status)
    ensures Verdict(req, db) in {Some(Inactive), Some(Forbidden), Some(TerminalOrder)}
    ensures Verdict(req, db) == Some(TerminalOrder) <==> MaySee(req, db, o)
  {
  }
}
