/** The main results about every run of the system, however its statements interleave. */
module Theorems {
  import opened Types
  import opened Policy
  import opened Statements
  import opened Requests
  import opened Programs
  import opened SoloRuns
  import opened Safety
  import opened Evolution
  import opened History
  import opened SerialRuns
  import opened Views
  import opened Machine
  import Numbers
  import L = Ledger
  import V = AuditView

  /**
   * Every run leaves the same tables and the same audit log as running the committed transactions
   * one at a time, each alone and each with the outcome of its atomic request, in commit order.
   */
  lemma Serializable(trace: seq<System>, i: nat)
    requires Run(trace) && i < |trace|
    ensures Serial(trace[i].done) && trace[i].db == Replay(trace[i].done)
    ensures forall k :: 0 <= k < |trace[i].done| ==>
              Applies(trace[i].done[k].req, trace[i].done[k].start,
                      Replay(trace[i].done[..k]), Replay(trace[i].done[..k + 1]))
  {
    RunInv(trace, i);
    forall k | 0 <= k < |trace[i].done|
      ensures Applies(trace[i].done[k].req, trace[i].done[k].start,
                      Replay(trace[i].done[..k]), Replay(trace[i].done[..k + 1]))
    {
      SerialApplies(trace[i].done, k);
    }
  }

  /** A commit puts its transaction at the end of the serial order; nothing else changes the order. */
  lemma {:induction false} CommitOrderGrows(trace: seq<System>, i: nat, j: nat)
    requires Run(trace) && i <= j < |trace|
    ensures trace[i].done <= trace[j].done
    decreases j
  {
    if i < j {
      CommitOrderGrows(trace, i, j - 1);
      assert Step(trace[j - 1], trace[j]);
    }
  }

  /** In every reachable state all cross-row rules, audit chains and counts hold. */
  lemma AlwaysGood(trace: seq<System>, i: nat)
    requires Run(trace) && i < |trace|
    ensures Good(trace[i].db)
  {
    Serializable(trace, i);
    var done := trace[i].done;
    SerialApplies(done, |done|);
    assert done[..|done|] == done;
  }

  /** However assignment and deactivation interleave, a live order has an active technician. */
  lemma TechnicianBehindEveryAssignment(trace: seq<System>, i: nat, o: Uuid)
    requires Run(trace) && i < |trace| && o in trace[i].db.orders
    requires trace[i].db.orders[o].status == Assigned || trace[i].db.orders[o].status == InProgress
    ensures
      var db := trace[i].db;
      var assignee := db.orders[o].assignee;
      assignee.Some? && assignee.value in db.users
      && db.users[assignee.value].active && db.users[assignee.value].role == Technician
  {
    AlwaysGood(trace, i);
    assert RowOk(trace[i].db.orders[o]) && AssigneeOk(trace[i].db.users, trace[i].db.orders[o]);
  }

  /** Without the foreign key: an order's asset exists, and is usable while the order is open. */
  lemma AssetBehindEveryOrder(trace: seq<System>, i: nat, o: Uuid)
    requires Run(trace) && i < |trace| && o in trace[i].db.orders
    ensures
      var db := trace[i].db;
      var w := db.orders[o];
      && w.asset in db.assets
      && (w.status in {Open, Assigned, InProgress} ==> db.assets[w.asset].status in {ActiveAsset, MaintenanceAsset})
  {
    AlwaysGood(trace, i);
    assert AssetOk(trace[i].db.assets, trace[i].db.orders[o]);
  }

  /** Once there is an administrator there is an active one, for ever. */
  lemma AdministratorRemains(trace: seq<System>, i: nat, j: nat)
    requires Run(trace) && i <= j < |trace|
    requires exists u :: u in trace[i].db.users && trace[i].db.users[u].role == Admin
    ensures exists u :: u in trace[j].db.users && trace[j].db.users[u].role == Admin && trace[j].db.users[u].active
  {
    OnlyForward(trace, i, j);
    AlwaysGood(trace, j);
    var a :| a in trace[i].db.users && trace[i].db.users[a].role == Admin;
    assert a in trace[j].db.users && trace[j].db.users[a].role == Admin;
    var b :| b in ActiveAdmins(trace[j].db.users);
  }

  /** Along every run orders only move up, terminal rows freeze, and ids, roles and rows remain. */
  lemma OnlyForward(trace: seq<System>, i: nat, j: nat)
    requires Run(trace) && i <= j < |trace|
    ensures Evolves(trace[i].db, trace[j].db)
  {
    hide Evolves, Applies;
    CommitOrderGrows(trace, i, j);
    Serializable(trace, i);
    Serializable(trace, j);
    var done := trace[j].done;
    assert done[..|trace[i].done|] == trace[i].done && done[..|done|] == done;
    SerialEvolves(done, |trace[i].done|, |done|);
  }

  /**
   * An error is honest: when an answer gets a request refused, its verdict on the database as it is
   * committed at that moment is exactly that error, whatever other transactions are doing.
   */
  lemma RefusedForCause(trace: seq<System>, i: nat, id: Id, answer: Answer)
    requires Run(trace) && i + 1 < |trace| && Executes(trace[i], trace[i + 1], id, answer)
    requires PlaceOf(trace[i + 1].open[id]).Refused?
    ensures Verdict(trace[i + 1].open[id].req, trace[i].db) == Some(PlaceOf(trace[i + 1].open[id]).error)
  {
    RunInv(trace, i);
    ExecutesTxn(trace[i], trace[i + 1], id, answer);
    RunAlone(trace[i + 1].open[id], trace[i].db);
  }

  /** And a success is due: a transaction at its end would still go through if it ran alone now. */
  lemma SucceedsForCause(trace: seq<System>, i: nat, id: Id)
    requires Run(trace) && i < |trace| && id in trace[i].open && PlaceOf(trace[i].open[id]) == Succeeded
    ensures
      var t := trace[i].open[id];
      Solo(t, trace[i].db) && Applies(t.req, t.start, trace[i].db, View(t, trace[i].db))
  {
    RunInv(trace, i);
    var m := trace[i];
    var m' := m.(db := View(m.open[id], m.db), open := m.open - {id}, done := m.done + [m.open[id]]);
    CommitApplies(m, m', id);
  }

  /** The chain of an entity ends at its present row; a deleted asset has no row after its deletion. */
  lemma ChainEndsAtPresent(trace: seq<System>, i: nat, kind: Kind, id: Uuid)
    requires Run(trace) && i < |trace|
    ensures
      var db := trace[i].db;
      Chained(db.log) && TipMatches(LastRow(db.log, kind, id), Current(db, kind, id), id in db.gone)
  {
    AlwaysGood(trace, i);
    assert Tips(trace[i].db);
  }

  /** The number of status rows of an order says where it is in its lifecycle. */
  lemma StatusRowsCount(trace: seq<System>, i: nat, o: Uuid)
    requires Run(trace) && i < |trace| && o in trace[i].db.orders
    ensures L.Expected(trace[i].db.orders[o], L.Moves(trace[i].db.log, o))
  {
    AlwaysGood(trace, i);
    assert L.CountedOrder(trace[i].db.orders, o, L.Moves(trace[i].db.log, o));
  }

  /** Under any mix of bootstrapping and seeding there is at most one bootstrap. */
  lemma OneBootstrap(trace: seq<System>, i: nat)
    requires Run(trace) && i < |trace|
    ensures L.Bootstraps(trace[i].db.log) <= 1
  {
    AlwaysGood(trace, i);
  }

  /** A technician's audit rows are steps of that technician's own orders. */
  lemma TechniciansMoveTheirOwn(trace: seq<System>, i: nat, r: nat)
    requires Run(trace) && i < |trace| && r < |trace[i].db.log|
    ensures
      var row, users := trace[i].db.log[r], trace[i].db.users;
      row.actor.Some? ==>
        row.actor.value in users && (users[row.actor.value].role == Technician ==> L.OwnStep(row.actor.value, row))
  {
    AlwaysGood(trace, i);
    assert L.RowOk(trace[i].db.users, trace[i].db.log[r]);
  }

  /** The rows a commit adds were permitted to their active authors in the committed state. */
  lemma CommitsAreAuthored(trace: seq<System>, i: nat, id: Id)
    requires Run(trace) && i + 1 < |trace| && Commits(trace[i], trace[i + 1], id)
    ensures L.WellAuthored(trace[i].db, trace[i + 1].db)
  {
    RunInv(trace, i);
    CommitApplies(trace[i], trace[i + 1], id);
    L.AppliesAuthored(trace[i].open[id].req, trace[i].open[id].start, trace[i].db, trace[i + 1].db);
  }

  /** Of any completions of one order that run concurrently at most one commits. */
  lemma OneCompletionCommits(trace: seq<System>, i: nat, k: nat, l: nat, o: Uuid)
    requires Run(trace) && i < |trace| && k < l < |trace[i].done|
    ensures !(Completes(trace[i].done[k].req, o) && Completes(trace[i].done[l].req, o))
  {
    Serializable(trace, i);
    OneCompletion(trace[i].done, k, l, o);
  }

  lemma TerminalForGood(trace: seq<System>, i: nat, j: nat, o: Uuid)
    requires Run(trace) && i <= j < |trace|
    requires o in trace[i].db.orders && Terminal(trace[i].db.orders[o].status)
    ensures o in trace[j].db.orders && Terminal(trace[j].db.orders[o].status)
  {
    hide Run, Evolves;
    OnlyForward(trace, i, j);
    TerminalStays(trace[i].db, trace[j].db, o);
  }

  /** Once an order is terminal, no open transaction on it ever gets to its successful end. */
  lemma TooLateToSucceed(trace: seq<System>, i: nat, j: nat, o: Uuid, id: Id)
    requires Run(trace) && i <= j < |trace|
    requires o in trace[i].db.orders && Terminal(trace[i].db.orders[o].status)
    requires id in trace[j].open && Touches(trace[j].open[id].req, o)
    ensures PlaceOf(trace[j].open[id]) != Succeeded
  {
    hide Run, Verdict, Outcome, View, Solo, PlaceOf;
    TerminalForGood(trace, i, j, o);
    if PlaceOf(trace[j].open[id]) == Succeeded {
      SucceedsForCause(trace, j, id);
      TerminalVerdict(trace[j].open[id].req, trace[j].db, o);
    }
  }

  /**
   * And it is told so: from then on it is refused as terminal if its actor still has permission and
   * scope, and for the lack of these otherwise.
   */
  lemma TooLateIsTold(trace: seq<System>, i: nat, j: nat, o: Uuid, id: Id, answer: Answer)
    requires Run(trace) && i <= j && j + 1 < |trace| && Executes(trace[j], trace[j + 1], id, answer)
    requires o in trace[i].db.orders && Terminal(trace[i].db.orders[o].status)
    requires Touches(trace[j + 1].open[id].req, o) && PlaceOf(trace[j + 1].open[id]).Refused?
    ensures o in trace[j].db.orders
    ensures PlaceOf(trace[j + 1].open[id]).error in {Inactive, Forbidden, TerminalOrder}
    ensures PlaceOf(trace[j + 1].open[id]).error == TerminalOrder <==>
            MaySee(trace[j + 1].open[id].req, trace[j].db, o)
  {
    hide Run, Verdict, PlaceOf, Promises;
    TerminalForGood(trace, i, j, o);
    RefusedForCause(trace, j, id, answer);
    TerminalVerdict(trace[j + 1].open[id].req, trace[j].db, o);
  }

  /** One of two completions has committed: the other never succeeds, however far it had got. */
  lemma OtherCompletionFails(trace: seq<System>, i: nat, j: nat, k: nat, o: Uuid, id: Id)
    requires Run(trace) && i <= j < |trace| && k < |trace[i].done| && Completes(trace[i].done[k].req, o)
    requires id in trace[j].open && Completes(trace[j].open[id].req, o)
    ensures PlaceOf(trace[j].open[id]) != Succeeded
    ensures o in trace[i].db.orders && Terminal(trace[i].db.orders[o].status)
  {
    hide Run, PlaceOf, Replay, Serial, Applies;
    Serializable(trace, i);
    CompletedIsTerminal(trace[i].done, k, o);
    TooLateToSucceed(trace, i, j, o, id);
  }

  /**
   * In every reachable state an order is assigned to whom its last committed assignment names, and to
   * nobody if there was none.
   */
  lemma AssignmentsHold(trace: seq<System>, i: nat, o: Uuid)
    requires Run(trace) && i < |trace| && o in trace[i].db.orders
    ensures trace[i].db.orders[o].assignee == LastAssigned(trace[i].done, |trace[i].done|, o)
  {
    hide Run, Replay, Serial, Applies;
    Serializable(trace, i);
    var done := trace[i].done;
    assert done[..|done|] == done;
    AssignmentsStick(done, |done|, o);
  }

  /** Concurrent patches of different fields all survive. */
  lemma PatchesSurvive(trace: seq<System>, i: nat, k: nat, o: Uuid, f: Field)
    requires Run(trace) && i < |trace| && k < |trace[i].done|
    requires Supplied(trace[i].done[k].req, o, f).Some?
    requires forall j :: k < j < |trace[i].done| ==> Supplied(trace[i].done[j].req, o, f) == None
    ensures o in trace[i].db.orders
    ensures ValueOf(trace[i].db.orders[o], f) == Supplied(trace[i].done[k].req, o, f).value
  {
    Serializable(trace, i);
    var done := trace[i].done;
    assert done[..|done|] == done;
    PatchSurvives(done, k, |done|, o, f);
  }

  /** The audit API shows every row of every reachable log, with nothing missing from its snapshots. */
  lemma EveryRowIsShown(trace: seq<System>, i: nat, r: nat, c: V.Codec)
    requires Run(trace) && i < |trace| && r < |trace[i].db.log|
    ensures
      var row := trace[i].db.log[r];
      && V.Shown(V.KindText(row.kind), V.Stored(c, row.before)) == V.Ok(V.Stored(c, row.before))
      && V.Shown(V.KindText(row.kind), V.Stored(c, row.after)) == V.Ok(V.Stored(c, row.after))
  {
    AlwaysGood(trace, i);
    var row := trace[i].db.log[r];
    assert L.RowOk(trace[i].db.users, row);
    V.WrittenIsShown(c, row.before, row.kind);
    V.WrittenIsShown(c, row.after, row.kind);
  }

  /** Each entity's rows begin with its creation, and nothing follows the deletion of an asset. */
  lemma ChainsBeginAndEnd(trace: seq<System>, i: nat, r: nat, s: nat)
    requires Run(trace) && i < |trace| && r < s < |trace[i].db.log|
    ensures
      var log := trace[i].db.log;
      log[r].kind == log[s].kind && log[r].id == log[s].id ==>
        !L.IsCreation(log[s].action) && log[r].action != AssetDeleted
  {
    AlwaysGood(trace, i);
    var log := trace[i].db.log;
    assert L.RowOk(trace[i].db.users, log[r]) && L.RowOk(trace[i].db.users, log[s]);
    FirstRowOnly(log, s);
    if log[r].action == AssetDeleted { NothingFollows(log, r, s); }
  }

  lemma ChainsBegin(trace: seq<System>, i: nat, s: nat)
    requires Run(trace) && i < |trace| && s < |trace[i].db.log|
    requires forall r :: 0 <= r < s ==>
               trace[i].db.log[r].kind != trace[i].db.log[s].kind || trace[i].db.log[r].id != trace[i].db.log[s].id
    ensures L.IsCreation(trace[i].db.log[s].action)
  {
    AlwaysGood(trace, i);
    FirstRowOnly(trace[i].db.log, s);
    assert L.RowOk(trace[i].db.users, trace[i].db.log[s]);
  }

  /** Order numbers, asset codes and email addresses identify their rows in every reachable state. */
  lemma NumbersIdentify(trace: seq<System>, i: nat)
    requires Run(trace) && i < |trace|
    ensures
      var db := trace[i].db;
      && (forall o, p :: o in db.orders && p in db.orders && db.orders[o].number == db.orders[p].number ==> o == p)
      && (forall a, b :: a in db.assets && b in db.assets && db.assets[a].code == db.assets[b].code ==> a == b)
      && (forall u, v :: u in db.users && v in db.users && db.users[u].email == db.users[v].email ==> u == v)
      && (forall o :: o in db.orders ==> Numbers.MatchesPattern(db.orders[o].number))
  {
    AlwaysGood(trace, i);
    assert forall o :: o in trace[i].db.orders ==> RowOk(trace[i].db.orders[o]);
  }

  /**
   * The rows an open transaction has written, and that the table checks look at, are in order before
   * any check is made: at every moment its view keeps all rules, not just what it commits.
   */
  lemma ViewsAreSound(trace: seq<System>, i: nat, id: Id)
    requires Run(trace) && i < |trace| && id in trace[i].open && !PlaceOf(trace[i].open[id]).Refused?
    ensures Sound(View(trace[i].open[id], trace[i].db))
  {
    hide Sound, View, Solo;
    RunInv(trace, i);
    assert TxnOk(trace[i].open[id], trace[i]);
    SoloViewSound(trace[i].open[id], trace[i].db);
  }

  lemma FreshNotRefused(req: Request, start: Time)
    ensures !PlaceOf(Txn(req, start, [])).Refused?
  {
  }

  /** A transaction becomes refused by one of its own answers only. */
  lemma StepRefuses(m: System, m': System, id: Id)
    requires Step(m, m') && id in m'.open && PlaceOf(m'.open[id]).Refused?
    ensures (id in m.open && m'.open[id] == m.open[id]) || exists answer: Answer :: Executes(m, m', id, answer)
  {
    if j: Id, req: Request :| Begins(m, m', j, req) {
      FreshNotRefused(req, m.clock);
    }
    hide PlaceOf, AskOf, View, Promises, LocksOf, Stamped, Drawn;
  }

  /**
   * However transactions interleave, none is ever refused as removing the last administrator, and
   * none trips over a row that vanished between two of its statements.
   */
  lemma {:induction false} NeverRefusedWith(trace: seq<System>, i: nat, id: Id)
    requires Run(trace) && i < |trace| && id in trace[i].open && PlaceOf(trace[i].open[id]).Refused?
    ensures PlaceOf(trace[i].open[id]).error != LastAdmin && PlaceOf(trace[i].open[id]).error != RowVanished
  {
    hide PlaceOf, Executes, Step, Verdict;
    var m, m' := trace[i - 1], trace[i];
    StepRefuses(m, m', id);
    if id in m.open && m'.open[id] == m.open[id] {
      NeverRefusedWith(trace, i - 1, id);
    } else {
      var answer: Answer :| Executes(m, m', id, answer);
      RefusedForCause(trace, i - 1, id, answer);
      LastAdminNeverReturned(m'.open[id].req, m.db);
      NothingVanishes(m'.open[id].req, m.db);
    }
  }
}
