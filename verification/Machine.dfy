/**
 * The running system: any number of open transactions whose statements interleave, over one
 * committed database. A statement runs when its locks are granted and sees the latest committed
 * rows and the transaction's own writes; a commit publishes these at once and gives up the locks.
 */
module Machine {
  import opened Types
  import opened Policy
  import opened Statements
  import opened Requests
  import opened Programs
  import opened SoloRuns
  import opened Guards
  import opened Locking
  import opened Serialization
  import opened Safety
  import opened SerialRuns
  import Numbers

  type Id = nat

  /** `done` lists the committed transactions in commit order. */
  datatype System = System(db: Db, open: map<Id, Txn>, clock: Time, sequence: nat, done: seq<Txn>)

  const INITIAL := System(EMPTY, map[], 0, 0, [])

  /** No other open transaction holds a lock in the way. */
  ghost predicate Grantable(m: System, id: Id, locks: set<Lock>) {
    forall j :: j in m.open && j != id ==> Apart(locks, LocksOf(m.open[j]))
  }

  /** Stamps are read from the clock while the statement runs. */
  predicate Stamped(s: Statement, answer: Answer, clock: Time, clock': Time) {
    match (s, answer)
    case (UpdateUser(_, _), UserRow(Some(u))) => clock <= u.updated <= clock'
    case (UpdateAsset(_, _), AssetRow(Some(a))) => clock <= a.updated <= clock'
    case (UpdateWorkOrder(_, _), OrderRow(Some(w))) =>
      clock <= w.updated <= clock' && (w.completed.Some? ==> clock <= w.completed.value <= clock')
    case _ => true
  }

  /** The sequence is advanced by the statement itself, whether or not the transaction commits. */
  predicate Drawn(s: Statement, answer: Answer, sequence: nat, sequence': nat) {
    if s.InsertWorkOrder? && answer.InsertedOrder? then sequence' == sequence + 1 && answer.number == sequence'
    else sequence' == sequence
  }

  predicate RowFound(s: Statement, v: Db, answer: Answer) {
    s.PrelockUser? ==> answer == Prelocked(s.u in v.users)
  }

  /** The actor was found and checked some time before, and users are never removed. */
  ghost predicate Begins(m: System, m': System, id: Id, req: Request) {
    && id !in m.open
    && WellFormed(req)
    && (HasActor(req) ==> ActorOf(req) in m.db.users)
    && m.clock <= m'.clock
    && m' == m.(open := m.open[id := Txn(req, m.clock, [])], clock := m'.clock)
  }

  ghost predicate Executes(m: System, m': System, id: Id, answer: Answer) {
    && id in m.open
    && var t := m.open[id];
    && AskOf(t).Some?
    && var s := AskOf(t).value;
    && Grantable(m, id, Needs(s) + Takes(s, answer))
    && Promises(s, View(t, m.db), answer)
    && RowFound(s, View(t, m.db), answer)
    && m.clock <= m'.clock
    && Stamped(s, answer, m.clock, m'.clock)
    && Drawn(s, answer, m.sequence, m'.sequence)
    && m' == m.(open := m.open[id := Extend(t, answer)], clock := m'.clock, sequence := m'.sequence)
  }

  ghost predicate Commits(m: System, m': System, id: Id) {
    && id in m.open
    && PlaceOf(m.open[id]) == Succeeded
    && m' == m.(db := View(m.open[id], m.db), open := m.open - {id}, done := m.done + [m.open[id]])
  }

  /** The service returns its error and the transaction is rolled back. */
  ghost predicate Returns(m: System, m': System, id: Id, e: Error) {
    id in m.open && PlaceOf(m.open[id]) == Refused(e) && m' == m.(open := m.open - {id})
  }

  /** Cancellation, a lost connection or a failed statement roll back at any place. */
  ghost predicate Aborts(m: System, m': System, id: Id) {
    id in m.open && m' == m.(open := m.open - {id})
  }

  ghost predicate Step(m: System, m': System) {
    || (exists id: Id, req: Request :: Begins(m, m', id, req))
    || (exists id: Id, answer: Answer :: Executes(m, m', id, answer))
    || (exists id: Id :: Commits(m, m', id))
    || (exists id: Id, e: Error :: Returns(m, m', id, e))
    || (exists id: Id :: Aborts(m, m', id))
  }

  /** A run of the system. */
  ghost predicate Run(trace: seq<System>) {
    && trace != [] && trace[0] == INITIAL
    && forall i :: 0 < i < |trace| ==> Step(trace[i - 1], trace[i])
  }

  // ---- Clock and sequence

  predicate OrderTimed(w: Order, clock: Time) {
    w.updated <= clock && (w.completed.Some? ==> w.completed.value <= clock)
  }

  ghost predicate Timed(db: Db, clock: Time) {
    && (forall u :: u in db.users ==> db.users[u].updated <= clock)
    && (forall a :: a in db.assets ==> db.assets[a].updated <= clock)
    && (forall o :: o in db.orders ==> OrderTimed(db.orders[o], clock))
  }

  predicate AnswerTimed(answer: Answer, clock: Time) {
    match answer
    case UserRow(Some(u)) => u.updated <= clock
    case AssetRow(Some(a)) => a.updated <= clock
    case OrderRow(Some(w)) => OrderTimed(w, clock)
    case InsertedOrder(_, _, _, w) => OrderTimed(w, clock)
    case _ => true
  }

  ghost predicate TxnTimed(t: Txn, clock: Time) {
    t.start <= clock && forall i :: 0 <= i < |t.answers| ==> AnswerTimed(t.answers[i], clock)
  }

  predicate StatementTimed(s: Statement, clock: Time) {
    match s
    case InsertUser(row) => row.updated <= clock
    case InsertAsset(row) => row.updated <= clock
    case InsertWorkOrder(row) => OrderTimed(row, clock)
    case _ => true
  }

  lemma AskTimed(t: Txn)
    ensures AskOf(t).Some? ==> StatementTimed(AskOf(t).value, t.start)
  {
  }

  lemma {:induction false} ViewTimed(t: Txn, db: Db, clock: Time)
    requires Timed(db, clock) && TxnTimed(t, clock)
    ensures Timed(View(t, db), clock)
    decreases |t.answers|
  {
    if !Fresh(t) {
      ViewTimed(Cut(t), db, clock);
      AskTimed(Cut(t));
    }
  }

  ghost predicate NumbersBelow(orders: map<Uuid, Order>, sequence: nat) {
    forall o :: o in orders ==> Numbers.SequenceOf(orders[o].number) <= sequence
  }

  ghost predicate DrawnBelow(locks: set<Lock>, sequence: nat) {
    forall n: nat :: FreshNumber(n) in locks ==> n <= sequence
  }

  // ---- The invariant

  ghost predicate TxnOk(t: Txn, m: System) {
    && WellFormed(t.req)
    && (HasActor(t.req) ==> ActorOf(t.req) in m.db.users)
    && Steady(t, m.db)
    && TxnTimed(t, m.clock)
    && DrawnBelow(LocksOf(t), m.sequence)
  }

  ghost predicate Inv(m: System) {
    && Sound(m.db)
    && Timed(m.db, m.clock)
    && NumbersBelow(m.db.orders, m.sequence)
    && Serial(m.done) && m.db == Replay(m.done)
    && (forall id :: id in m.open ==> TxnOk(m.open[id], m))
    && Isolated(m.open)
  }

  lemma InitialInv()
    ensures Inv(INITIAL)
  {
    EmptySound();
  }

  ghost predicate Isolated(open: map<Id, Txn>) {
    forall i, j :: i in open && j in open && i != j ==> Apart(LocksOf(open[i]), LocksOf(open[j]))
  }

  /** Nothing changes for a transaction while others begin or run statements. */
  lemma Undisturbed(t: Txn, m: System, m': System)
    requires TxnOk(t, m) && m'.db == m.db && m.clock <= m'.clock && m.sequence <= m'.sequence
    ensures TxnOk(t, m')
  {
    forall i | 0 <= i < |t.answers| ensures AnswerTimed(t.answers[i], m'.clock) {
      assert AnswerTimed(t.answers[i], m.clock);
    }
  }

  lemma StillTimed(db: Db, clock: Time, clock': Time)
    requires Timed(db, clock) && clock <= clock'
    ensures Timed(db, clock')
  {
  }

  lemma BeginsInv(m: System, m': System, id: Id, req: Request)
    requires Inv(m) && Begins(m, m', id, req)
    ensures Inv(m')
  {
    hide Sound, Serial, Replay, Steady, Verdict;
    StillTimed(m.db, m.clock, m'.clock);
    forall j | j in m'.open ensures TxnOk(m'.open[j], m') {
      if j == id { BeginSteady(m'.open[id], m.db); } else { Undisturbed(m.open[j], m, m'); }
    }
    assert LocksOf(m'.open[id]) == {};
  }

  /** The actor's row is found by its prelock: it was there when the transaction was admitted. */
  lemma ActorIsFound(t: Txn, m: System, answer: Answer)
    requires TxnOk(t, m) && AskOf(t).Some? && RowFound(AskOf(t).value, View(t, m.db), answer)
    ensures ActorFound(t.req, AskOf(t).value, answer)
  {
    AskingIsSteady(t, m.db);
  }

  lemma ExtendTimed(t: Txn, db: Db, answer: Answer, clock: Time, clock': Time)
    requires AskOf(t).Some? && Allows(AskOf(t).value, View(t, db), answer)
    requires TxnTimed(t, clock) && Timed(db, clock) && clock <= clock'
    requires Stamped(AskOf(t).value, answer, clock, clock')
    ensures TxnTimed(Extend(t, answer), clock')
  {
    ViewTimed(t, db, clock);
    AskTimed(t);
    forall i | 0 <= i < |t.answers| ensures AnswerTimed(t.answers[i], clock') {
      assert AnswerTimed(t.answers[i], clock);
    }
    assert AnswerTimed(answer, clock');
  }

  lemma ExtendDrawn(t: Txn, answer: Answer, sequence: nat, sequence': nat)
    requires AskOf(t).Some? && DrawnBelow(LocksOf(t), sequence)
    requires Drawn(AskOf(t).value, answer, sequence, sequence')
    requires answer.InsertedOrder? ==> AskOf(t).value.InsertWorkOrder?
    ensures DrawnBelow(LocksOf(Extend(t, answer)), sequence')
  {
    ExtendLocks(t, answer);
    TakesNumber(AskOf(t).value, answer);
  }

  lemma TakesNumber(s: Statement, answer: Answer)
    ensures forall n: nat :: FreshNumber(n) in Takes(s, answer) ==> answer.InsertedOrder? && answer.number == n
  {
  }

  /**
   * Stamps do not decrease: an update reads the clock while it holds the row, and every stamp in
   * its view was read before. SQL itself promises nothing of the kind.
   */
  lemma ClockOrdersStamps(s: Statement, v: Db, answer: Answer, clock: Time, clock': Time)
    requires Promises(s, v, answer) && Timed(v, clock) && Stamped(s, answer, clock, clock')
    ensures StampsAscend(s, v, answer)
  {
  }

  /**
   * Numbers do not repeat: an insert draws the next value of the sequence, and every number in its
   * view, its own included, was drawn before.
   */
  lemma NextNumberUnused(t: Txn, m: System)
    requires NumbersBelow(m.db.orders, m.sequence) && TxnOk(t, m) && AskOf(t).Some?
    ensures NumberFree(View(t, m.db).orders, m.sequence + 1)
  {
    AskingIsSteady(t, m.db);
  }

  /**
   * Stamping with the start of the transaction instead, as the documentation has it, would let stamps
   * go back: SQL promises such an answer whenever the row was written after the transaction began.
   */
  lemma StartStampsGoBack(v: Db, u: Uuid, start: Time)
    requires EmailsUnique(v.users) && u in v.users && start < v.users[u].updated
    ensures Promises(UpdateUser(u, v.users[u]), v, UserRow(Some(v.users[u].(updated := start))))
    ensures !Allows(UpdateUser(u, v.users[u]), v, UserRow(Some(v.users[u].(updated := start))))
  {
  }

  lemma ExecutesAllowed(m: System, m': System, id: Id, answer: Answer)
    requires Inv(m) && Executes(m, m', id, answer)
    ensures Allows(AskOf(m.open[id]).value, View(m.open[id], m.db), answer)
  {
    hide Sound, Serial, Replay, Steady, Promises, StampsAscend, NumberFree, View, LocksOf, PlaceOf;
    var t := m.open[id];
    assert TxnOk(t, m);
    ViewTimed(t, m.db, m.clock);
    ClockOrdersStamps(AskOf(t).value, View(t, m.db), answer, m.clock, m'.clock);
    NextNumberUnused(t, m);
  }

  lemma ExecutesDrawn(m: System, m': System, id: Id, answer: Answer)
    requires Inv(m) && Executes(m, m', id, answer)
    ensures DrawnBelow(LocksOf(m'.open[id]), m'.sequence)
  {
    hide Sound, Serial, Replay, Steady, LocksOf, PlaceOf, View;
    assert TxnOk(m.open[id], m);
    ExtendDrawn(m.open[id], answer, m.sequence, m'.sequence);
  }

  lemma ExecutesTxn(m: System, m': System, id: Id, answer: Answer)
    requires Inv(m) && Executes(m, m', id, answer)
    ensures Solo(m'.open[id], m.db) && TxnOk(m'.open[id], m')
  {
    var t := m.open[id];
    ExecutesAllowed(m, m', id, answer);
    ExecutesDrawn(m, m', id, answer);
    hide Promises, Allows, Stamped, Drawn, Steady, Solo, View, LocksOf, Serial, Replay;
    assert TxnOk(t, m);
    ActorIsFound(t, m, answer);
    StepSteady(t, m.db, answer);
    ExtendTimed(t, m.db, answer, m.clock, m'.clock);
  }

  lemma ExecutesIsolated(m: System, m': System, id: Id, answer: Answer)
    requires Isolated(m.open) && Executes(m, m', id, answer)
    ensures Isolated(m'.open)
  {
    var t, s := m.open[id], AskOf(m.open[id]).value;
    ExtendLocks(t, answer);
    forall j | j in m.open && j != id
      ensures Apart(LocksOf(m'.open[id]), LocksOf(m.open[j])) && Apart(LocksOf(m.open[j]), LocksOf(m'.open[id]))
    {
      assert Apart(Needs(s) + Takes(s, answer), LocksOf(m.open[j]));
      ApartBothWays(Needs(s) + Takes(s, answer), LocksOf(m.open[j]));
    }
  }

  lemma ExecutesInv(m: System, m': System, id: Id, answer: Answer)
    requires Inv(m) && Executes(m, m', id, answer)
    ensures Inv(m')
  {
    hide Sound, Serial, Replay, Steady, Solo, View, PlaceOf, Promises, LocksOf;
    StillTimed(m.db, m.clock, m'.clock);
    ExecutesTxn(m, m', id, answer);
    ExecutesIsolated(m, m', id, answer);
    forall j | j in m'.open ensures TxnOk(m'.open[j], m') {
      if j != id { Undisturbed(m.open[j], m, m'); }
    }
  }

  /** What a commit leaves: the outcome of its request on the database before it. */
  lemma CommitApplies(m: System, m': System, id: Id)
    requires Inv(m) && Commits(m, m', id)
    ensures Applies(m.open[id].req, m.open[id].start, m.db, m'.db)
    ensures Frame(LocksOf(m.open[id]), m.db, m'.db)
    ensures Solo(m.open[id], m.db)
  {
    var t := m.open[id];
    assert !PlaceOf(t).Refused?;
    RunAlone(t, m.db);
    WritesWithinLocks(t, m.db, LocksOf(t));
  }

  lemma CommitsSerial(m: System, m': System, id: Id)
    requires Inv(m) && Commits(m, m', id)
    ensures Serial(m'.done) && m'.db == Replay(m'.done)
  {
    CommitApplies(m, m', id);
    assert m'.done[..|m'.done| - 1] == m.done;
  }

  lemma CommitsInv(m: System, m': System, id: Id)
    requires Inv(m) && Commits(m, m', id)
    ensures Inv(m')
  {
    hide Sound, Serial, Replay, Applies, Steady, Solo, LocksOf;
    var t := m.open[id];
    CommitApplies(m, m', id);
    CommitsSerial(m, m', id);
    AppliesSound(t.req, t.start, m.db, m'.db);
    ViewTimed(t, m.db, m.clock);
    forall j | j in m'.open ensures TxnOk(m'.open[j], m') {
      CommitSteady(m.open[j], t, m.db);
    }
  }

  lemma EndsInv(m: System, m': System, id: Id)
    requires Inv(m) && Aborts(m, m', id)
    ensures Inv(m')
  {
    forall j | j in m'.open ensures TxnOk(m'.open[j], m') {
      Undisturbed(m.open[j], m, m');
    }
  }

  lemma StepInv(m: System, m': System)
    requires Inv(m) && Step(m, m')
    ensures Inv(m')
  {
    if id: Id, req: Request :| Begins(m, m', id, req) {
      BeginsInv(m, m', id, req);
    } else if id: Id, answer: Answer :| Executes(m, m', id, answer) {
      ExecutesInv(m, m', id, answer);
    } else if id: Id :| Commits(m, m', id) {
      CommitsInv(m, m', id);
    } else if id: Id, e: Error :| Returns(m, m', id, e) {
      EndsInv(m, m', id);
    } else {
      var id: Id :| Aborts(m, m', id);
      EndsInv(m, m', id);
    }
  }

  lemma {:induction false} RunInv(trace: seq<System>, i: nat)
    requires Run(trace) && i < |trace|
    ensures Inv(trace[i])
  {
    if i == 0 {
      InitialInv();
    } else {
      RunInv(trace, i - 1);
      StepInv(trace[i - 1], trace[i]);
    }
  }
}
