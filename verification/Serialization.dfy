/**
 * Why interleaving does no harm: at every moment an open transaction could have been run alone,
 * from its first statement on, on the database as it is committed right now.
 */
module Serialization {
  import opened Types
  import opened Statements
  import opened Requests
  import opened Programs
  import opened SoloRuns
  import opened Guards
  import opened Locking

  /** Every answer so far is guarded by `locks`. */
  ghost predicate Covered(t: Txn, db: Db, locks: set<Lock>)
    decreases |t.answers|
  {
    Fresh(t) ||
    (&& Covered(Cut(t), db, locks)
     && AskOf(Cut(t)).Some?
     && Guarded(locks, View(Cut(t), db), AskOf(Cut(t)).value, Last(t)))
  }

  /** An open transaction in a running system; once refused it only has to give up its locks. */
  ghost predicate Steady(t: Txn, db: Db) {
    PlaceOf(t).Refused?
    || (Solo(t, db) && Covered(t, db, LocksOf(t)) && Held(t.req, PlaceOf(t)) <= LocksOf(t))
  }

  lemma {:induction false} CoveredByMore(t: Txn, db: Db, locks: set<Lock>, more: set<Lock>)
    requires Covered(t, db, locks) && locks <= more
    ensures Covered(t, db, more)
    decreases |t.answers|
  {
    if !Fresh(t) {
      CoveredByMore(Cut(t), db, locks, more);
      MoreGuards(locks, more, View(Cut(t), db), AskOf(Cut(t)).value, Last(t));
    }
  }

  /** A covered transcript replays, answer by answer, on any database that agrees on its locks. */
  lemma {:induction false} Replays(t: Txn, db: Db, db': Db, locks: set<Lock>)
    requires Solo(t, db) && Covered(t, db, locks) && Agree(locks, db, db')
    ensures Solo(t, db') && Covered(t, db', locks)
    ensures Agree(locks, View(t, db), View(t, db'))
    decreases |t.answers|
  {
    if !Fresh(t) {
      Replays(Cut(t), db, db', locks);
      GuardedStays(locks, View(Cut(t), db), View(Cut(t), db'), AskOf(Cut(t)).value, Last(t));
    }
  }

  /** A covered transcript writes only where its locks allow. */
  lemma {:induction false} WritesWithinLocks(t: Txn, db: Db, locks: set<Lock>)
    requires Solo(t, db) && Covered(t, db, locks)
    ensures Frame(locks, db, View(t, db))
    decreases |t.answers|
  {
    if Fresh(t) {
      FrameRefl(locks, db);
    } else {
      WritesWithinLocks(Cut(t), db, locks);
      FrameSteps(locks, db, View(Cut(t), db), AskOf(Cut(t)).value, Last(t));
    }
  }

  lemma AskingIsSteady(t: Txn, db: Db)
    requires Steady(t, db) && AskOf(t).Some?
    ensures !PlaceOf(t).Refused? && Solo(t, db) && Covered(t, db, LocksOf(t))
    ensures Frame(LocksOf(t), db, View(t, db))
  {
    assert !PlaceOf(t).Refused?;
    WritesWithinLocks(t, db, LocksOf(t));
  }

  lemma BeginSteady(t: Txn, db: Db)
    requires Fresh(t)
    ensures Steady(t, db)
  {
    BeginHeld(t.req);
  }

  /** A transaction's own statement keeps it steady, and the transcript so far is a solo run. */
  lemma StepSteady(t: Txn, db: Db, answer: Answer)
    requires WellFormed(t.req) && EmailsUnique(db.users)
    requires Steady(t, db) && AskOf(t).Some?
    requires Allows(AskOf(t).value, View(t, db), answer) && ActorFound(t.req, AskOf(t).value, answer)
    ensures Solo(Extend(t, answer), db)
    ensures Steady(Extend(t, answer), db)
  {
    var t' := Extend(t, answer);
    CutExtend(t, answer);
    assert Solo(t', db);
    if !PlaceOf(t').Refused? {
      var s, v, locks := AskOf(t).value, View(t, db), LocksOf(t');
      SoloFacts(t, db);
      FactsSuit(t.req, t.start, PlaceOf(t), db, v);
      StepHeld(t.req, t.start, PlaceOf(t), s, answer);
      StepGuarded(t.req, t.start, PlaceOf(t), s, db, v, answer, locks);
      CoveredByMore(t, db, LocksOf(t), locks);
    }
  }

  /** Another transaction's commit keeps a transaction steady. */
  lemma CommitSteady(t: Txn, other: Txn, db: Db)
    requires Steady(t, db) && Steady(other, db) && PlaceOf(other) == Succeeded
    requires Apart(LocksOf(t), LocksOf(other))
    ensures Steady(t, View(other, db))
  {
    if !PlaceOf(t).Refused? {
      WritesWithinLocks(other, db, LocksOf(other));
      FrameAgrees(LocksOf(t), LocksOf(other), db, View(other, db));
      Replays(t, db, View(other, db), LocksOf(t));
    }
  }
}
