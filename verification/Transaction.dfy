/**
 * The transaction wrapper around every callback: begin, run the callback once, commit, and a
 * deferred rollback; and which of its errors leave open whether the writes are there.
 */
module Transaction {

  datatype Cause =
    | BeginFailed
    | CallbackFailed
    | ServerRejected                // an error reported by the server in answer to COMMIT
    | CommitRolledBack              // the server answered COMMIT with ROLLBACK
    | Transport                     // no answer to COMMIT
    | OutcomeUnknown                // the mark put on errors that leave the outcome open
    | RollbackBroken

  /** A joined error is the set of its causes; no cause is no error. */
  type Error = set<Cause>

  datatype Work<+S> = Returns(state: S) | Fails(state: S) | Panics(state: S)

  datatype CommitFate = Acknowledged | Rejected | TurnedIntoRollback | LostBeforeCommit | LostAfterCommit

  /** What the server and the network will do to this transaction. */
  datatype Fate = Fate(begins: bool, commit: CommitFate, rollback: bool)

  datatype Outcome = Returned(err: Error) | Panicked

  datatype RollbackResult = RolledBack | TxClosed | RollbackError

  class Server<S> {
    var committed: S
    ghost var calls: nat

    constructor (state: S)
      ensures committed == state && calls == 0
    {
      committed, calls := state, 0;
    }
  }

  class Tx<S> {
    const server: Server<S>
    const readOnly: bool
    var buffered: S
    var closed: bool

    constructor (server: Server<S>, readOnly: bool)
      ensures this.server == server && this.readOnly == readOnly
      ensures !closed && buffered == server.committed
    {
      this.server, this.readOnly := server, readOnly;
      buffered, closed := server.committed, false;
    }

    /** The driver closes the transaction whatever comes back; the server ignores writes of a read-only one. */
    method Commit(fate: CommitFate) returns (err: Error)
      requires !closed
      modifies this`closed, server`committed
      ensures closed
      ensures err == match fate
                     case Acknowledged => {}
                     case Rejected => {ServerRejected}
                     case TurnedIntoRollback => {CommitRolledBack}
                     case _ => {Transport}
      ensures server.committed ==
              if !readOnly && (fate == Acknowledged || fate == LostAfterCommit) then buffered
              else old(server.committed)
    {
      closed := true;
      match fate
      case Acknowledged =>
        if !readOnly { server.committed := buffered; }
        err := {};
      case Rejected => err := {ServerRejected};
      case TurnedIntoRollback => err := {CommitRolledBack};
      case LostBeforeCommit => err := {Transport};
      case LostAfterCommit =>
        if !readOnly { server.committed := buffered; }
        err := {Transport};
    }

    /** Without an effect on what is committed, even when the connection breaks. */
    method Rollback(works: bool) returns (r: RollbackResult)
      modifies this`closed
      ensures closed
      ensures r == if old(closed) then TxClosed else if works then RolledBack else RollbackError
    {
      r := if closed then TxClosed else if works then RolledBack else RollbackError;
      closed := true;
    }
  }

  /** The commit was sent and nobody answered. */
  predicate InDoubt(fate: Fate) {
    fate.commit == LostBeforeCommit || fate.commit == LostAfterCommit
  }

  method InTx<S>(server: Server<S>, readOnly: bool, fn: S -> Work<S>, fate: Fate) returns (r: Outcome)
    modifies server
    // The callback runs at most once: not at all without a transaction, exactly once with one.
    ensures server.calls == old(server.calls) + if fate.begins then 1 else 0
    // No error means that everything is committed.
    ensures r == Returned({}) ==>
              && fate.begins && fn(old(server.committed)).Returns?
              && (!readOnly ==> server.committed == fn(old(server.committed)).state)
    // An error that is not marked, or a panic, means that nothing is.
    ensures r.Panicked? || (r.err != {} && OutcomeUnknown !in r.err) ==> server.committed == old(server.committed)
    // A marked error comes from an unanswered commit of a write transaction and from nothing else.
    ensures r.Returned? && OutcomeUnknown in r.err <==>
              !readOnly && fate.begins && fn(old(server.committed)).Returns? && InDoubt(fate)
    ensures r.Returned? && OutcomeUnknown in r.err ==>
              server.committed == if fate.commit == LostAfterCommit then fn(old(server.committed)).state
                                  else old(server.committed)
    // A read-only transaction changes nothing and never reports an unknown outcome.
    ensures readOnly ==> server.committed == old(server.committed) && (r.Returned? ==> OutcomeUnknown !in r.err)
    ensures r.Panicked? <==> fate.begins && fn(old(server.committed)).Panics?
    // Every failure is reported, and the rollback's own one only where a rollback was sent.
    ensures r == Returned({}) <==> fate.begins && fn(old(server.committed)).Returns? && fate.commit == Acknowledged
    ensures r.Returned? ==>
              (RollbackBroken in r.err <==> fate.begins && fn(old(server.committed)).Fails? && !fate.rollback)
  {
    if !fate.begins {
      return Returned({BeginFailed});
    }
    var tx := new Tx(server, readOnly);
    var work := fn(tx.buffered);
    server.calls := server.calls + 1;
    tx.buffered := work.state;
    var err: Error := {};
    if work.Fails? {
      err := {CallbackFailed};
    } else if work.Returns? {
      err := tx.Commit(fate.commit);
      if err != {} && !readOnly && ServerRejected !in err && CommitRolledBack !in err {
        err := {OutcomeUnknown} + err;
      }
    }
    // The deferred function.
    var rollback := tx.Rollback(fate.rollback);
    if rollback == RollbackError {
      err := err + {RollbackBroken};
    }
    r := if work.Panics? then Panicked else Returned(err);
  }
}
