/** Refusals in interleaved runs: the refusal that the committed tables give at that statement, and when it is not. */
module Refusals {
  import opened Prelude
  import opened Wager
  import opened Tables
  import opened Reachable
  import opened Runs
  import opened Interleaving
  import opened Statements
  import opened Commits
  import opened Concurrency

  /** One attempt of this job, alone, with the identifier and time that the statement would use. */
  predicate Alike(call: Call, tx: Tx, id: Id, at: Time) {
    tx.job.Submit? && call.cmd == tx.job.raw && call.inbox == tx.job.inbox && call.id == id && call.createdAt == at
  }

  /**
   * What an earlier statement found is still so: nobody has committed the identity since this transaction missed it.
   */
  ghost predicate StillMissing(db: Db, tx: Tx) {
    tx.job.Submit? && (tx.phase.Missed? || tx.phase.Locked?) ==> !IdentityTaken(db, tx.job.cmd)
  }

  // ---------- statement by statement ----------

  /** The message of a transaction past its reservation is nobody else's. */
  lemma MessageIsOwn(db: Db, tx: Tx)
    requires TxFits(db, tx) && tx.job.Submit?
    requires tx.phase.Reserved? || tx.phase.Conflicted? || tx.phase.Missed? || tx.phase.Locked?
    ensures ReserveInbox(db, tx.job.inbox) == Tables.Reserved
  {
    hide NormalizeCommand;
    hide PhaseFits;
    hide ValidMessage;
  }

  lemma ReachesIdentity(db: Db, call: Call, c: Command)
    requires Shape(db) && NormalizeCommand(call.cmd) == Ok(c) && ReserveInbox(db, call.inbox) == Tables.Reserved
    requires c.kind.Some?
    ensures ProcessWager(db, call) == ProcessIdentity(db, call, c)
  {
    hide NormalizeCommand;
    hide ReserveInbox;
    hide ProcessIdentity;
    hide Placed;
    hide KeyIndex;
    hide ExternalIndex;
    hide InboxClosed;
  }

  lemma MessageRefused(db: Db, tx: Tx, id: Id, at: Time, clock: Time, call: Call)
    requires Shape(db) && TxFits(db, tx) && Alike(call, tx, id, at) && (tx.phase.Begun? || tx.phase.InboxHit?)
    requires NextPhase(db, tx, id, at, clock).Failed?
    ensures ProcessWager(db, call) == Fail(NextPhase(db, tx, id, at, clock).code)
  {
    hide NormalizeCommand;
    hide ProcessIdentity;
    hide KeyIndex;
    hide ExternalIndex;
  }

  lemma IdentityRefused(db: Db, tx: Tx, id: Id, at: Time, clock: Time, call: Call)
    requires Shape(db) && TxFits(db, tx) && Alike(call, tx, id, at) && (tx.phase.Reserved? || tx.phase.Conflicted?)
    requires NextPhase(db, tx, id, at, clock).Failed?
    ensures ProcessWager(db, call) == Fail(NextPhase(db, tx, id, at, clock).code)
  {
    hide NormalizeCommand;
    hide ProcessWager;
    hide ReserveInbox;
    hide FindIdentity;
    hide ProcessNew;
    hide Placed;
    hide InboxClosed;
    MessageIsOwn(db, tx);
    ReachesIdentity(db, call, tx.job.cmd);
  }

  /** What findIdentity can answer, and with which codes. */
  lemma IdentityCodes(db: Db, c: Command)
    requires Shape(db) && c.kind.Some?
    ensures FindIdentity(db, c) == Absent <==> !IdentityTaken(db, c)
    ensures FindIdentity(db, c).Conflict? ==>
      FindIdentity(db, c).code in {IDEMPOTENCY_KEY_REUSED, EXTERNAL_TRANSACTION_ID_REUSED}
  {
    hide PayloadHashOf;
  }

  lemma WalletRefused(db: Db, tx: Tx, id: Id, at: Time, clock: Time, call: Call)
    requires Shape(db) && TxFits(db, tx) && Alike(call, tx, id, at) && tx.phase.Missed?
    requires NextPhase(db, tx, id, at, clock).Failed?
    ensures ProcessWager(db, call) == Fail(NextPhase(db, tx, id, at, clock).code) <==> StillMissing(db, tx)
  {
    hide NormalizeCommand;
    hide ProcessWager;
    hide ReserveInbox;
    hide FindIdentity;
    hide IdentityTaken;
    hide NewWager;
    hide Finish;
    hide Placed;
    hide InboxClosed;
    MessageIsOwn(db, tx);
    ReachesIdentity(db, call, tx.job.cmd);
    IdentityCodes(db, tx.job.cmd);
  }

  lemma NewWagerCodes(q: Request)
    requires NewWager(q).Fail?
    ensures NewWager(q).code !in {IDEMPOTENCY_KEY_REUSED, EXTERNAL_TRANSACTION_ID_REUSED}
  {
    hide ValidRequest;
  }

  lemma WagerRefused(db: Db, tx: Tx, id: Id, at: Time, clock: Time, call: Call)
    requires Shape(db) && TxFits(db, tx) && Alike(call, tx, id, at) && tx.phase.Locked?
    requires NextPhase(db, tx, id, at, clock).Failed?
    ensures ProcessWager(db, call) == Fail(NextPhase(db, tx, id, at, clock).code) <==> StillMissing(db, tx)
  {
    hide NormalizeCommand;
    hide ProcessWager;
    hide ReserveInbox;
    hide FindIdentity;
    hide IdentityTaken;
    hide NewWager;
    hide Finish;
    hide Placed;
    hide InboxClosed;
    MessageIsOwn(db, tx);
    ReachesIdentity(db, call, tx.job.cmd);
    IdentityCodes(db, tx.job.cmd);
    NewWagerCodes(RequestOf(tx.job.cmd, id, at));
  }

  /** A transaction at work, or with a wager found, is not refused before its commit. */
  lemma NotRefused(db: Db, tx: Tx, id: Id, at: Time, clock: Time)
    requires Shape(db) && TxFits(db, tx) && !tx.Over()
    requires tx.AtWork() || tx.phase.Recalled? || tx.phase.Replaying? || tx.phase.Replayed? || tx.phase.Closing?
    ensures !NextPhase(db, tx, id, at, clock).Failed?
  {
    hide NormalizeCommand;
    hide WorkFits;
    hide ReferenceSeen;
    hide ReplayFits;
    hide KeyIndex;
    hide ExternalIndex;
    hide InboxClosed;
    if tx.phase.Looked? && SameWallet(tx.phase.work, tx.phase.reference) {
      RelockReadsSame(db, tx.job, tx.phase.work, tx.phase.reference);
    }
  }

  lemma StatementRefused(db: Db, tx: Tx, id: Id, at: Time, clock: Time, call: Call)
    requires Shape(db) && TxFits(db, tx) && Alike(call, tx, id, at) && !tx.Over()
    requires NextPhase(db, tx, id, at, clock).Failed?
    ensures ProcessWager(db, call) == Fail(NextPhase(db, tx, id, at, clock).code) <==> StillMissing(db, tx)
  {
    hide NextPhase;
    hide TxFits;
    hide Shape;
    hide ProcessWager;
    hide IdentityTaken;
    match tx.phase
    case Begun => MessageRefused(db, tx, id, at, clock, call);
    case InboxHit(_) => MessageRefused(db, tx, id, at, clock, call);
    case Reserved => IdentityRefused(db, tx, id, at, clock, call);
    case Conflicted(_) => IdentityRefused(db, tx, id, at, clock, call);
    case Missed => WalletRefused(db, tx, id, at, clock, call);
    case Locked(_) => WagerRefused(db, tx, id, at, clock, call);
    case _ => NotRefused(db, tx, id, at, clock);
  }

  // ---------- refusals of the concurrent system ----------

  /** The action ends this transaction with a refusal. */
  predicate Refuses(s: Sys, a: Action, tid: nat)
    requires Safe(s)
  {
    var s' := Next(s, a);
    tid in s.txs && !s.txs[tid].Over() && tid in s'.txs && s'.txs[tid].phase.Failed?
  }

  lemma RefusedByStatement(s: Sys, tid: nat, id: Id, at: Time)
    requires Safe(s) && Refuses(s, Statement(tid, id, at), tid)
    ensures Shape(s.db) && TxFits(s.db, s.txs[tid])
    ensures Next(s, Statement(tid, id, at)).txs[tid].phase == NextPhase(s.db, s.txs[tid], id, at, s.clock)
  {
    hide AllGood;
    hide AllApart;
    hide Run;
    hide TxFits;
    hide NextPhase;
    hide Blocked;
    hide SomeoneUsesId;
    hide Placed;
    hide KeyIndex;
    hide ExternalIndex;
    hide InboxClosed;
  }

  /**
   * A submission that a statement refuses is refused for the reason that the committed tables give at that moment,
   * exactly if nobody has committed its identity since the transaction looked for it. Tables and history stay.
   */
  lemma RefusalsAreSerial(s: Sys, tid: nat, id: Id, at: Time, call: Call)
    requires Safe(s) && Refuses(s, Statement(tid, id, at), tid) && Alike(call, s.txs[tid], id, at)
    ensures var s' := Next(s, Statement(tid, id, at));
      && s'.db == s.db && s'.history == s.history
      && (ProcessWager(s.db, call) == Fail(s'.txs[tid].phase.code) <==> StillMissing(s.db, s.txs[tid]))
  {
    hide Safe;
    hide TxFits;
    hide NextPhase;
    hide Blocked;
    hide SomeoneUsesId;
    hide ProcessWager;
    hide StillMissing;
    RefusedByStatement(s, tid, id, at);
    StatementRefused(s.db, s.txs[tid], id, at, s.clock, call);
  }

  /** A retry that a statement refuses is refused for the reason that the committed tables give at that moment. */
  lemma RetryRefusalsAreSerial(s: Sys, tid: nat, id: Id, at: Time, r: Retry)
    requires Safe(s) && Refuses(s, Statement(tid, id, at), tid) && s.txs[tid].job.Resolve?
    requires var job := s.txs[tid].job; r.claim == job.claim && r.maxAttempts == job.maxAttempts && r.ttl == job.ttl
    requires r.clock == s.clock
    ensures var s' := Next(s, Statement(tid, id, at));
      s'.db == s.db && s'.history == s.history && RetryReference(s.db, r) == Fail(s'.txs[tid].phase.code)
  {
    hide Safe;
    hide TxFits;
    hide NextPhase;
    hide Blocked;
    hide SomeoneUsesId;
    hide RetryReference;
    RefusedByStatement(s, tid, id, at);
    RetryRefused(s.db, s.txs[tid], id, at, r);
  }

  lemma RetryRefused(db: Db, tx: Tx, id: Id, at: Time, r: Retry)
    requires Shape(db) && TxFits(db, tx) && !tx.Over() && tx.job.Resolve? && NextPhase(db, tx, id, at, r.clock).Failed?
    requires r.claim == tx.job.claim && r.maxAttempts == tx.job.maxAttempts && r.ttl == tx.job.ttl
    ensures RetryReference(db, r) == Fail(NextPhase(db, tx, id, at, r.clock).code)
  {
    hide FinishRetry;
    hide Claimed;
    hide WorkFits;
    hide ReferenceSeen;
    hide AnswerFits;
    hide KeyIndex;
    hide InboxClosed;
    if tx.AtWork() { NotRefused(db, tx, id, at, r.clock); }
  }

  /** A commit that is refused is refused as the transaction run alone at that moment is; a replay's commit never is. */
  lemma CommitRefusalsAreSerial(s: Sys, a: Action)
    requires Safe(s) && a.Commit? && Refuses(s, a, a.tid)
    ensures Committing(s.txs[a.tid]) && s.txs[a.tid].phase.Judged?
    ensures var s', tx, st := Next(s, a), s.txs[a.tid], AtServer(s, a.stamps);
      && s'.db == s.db && s'.history == s.history
      && (tx.job.Submit? ==> ProcessWager(s.db, CallOf(tx, st)) == Fail(s'.txs[a.tid].phase.code))
      && (tx.job.Resolve? ==>
            RetryReference(s.db, RetryOf(tx, st, a.since, a.failAt)) == Fail(s'.txs[a.tid].phase.code))
  {
    hide AllGood;
    hide AllApart;
    hide Run;
    hide TxFits;
    hide ProcessWager;
    hide RetryReference;
    hide Finish;
    hide FinishRetry;
    hide CompleteInbox;
    hide Placed;
    hide KeyIndex;
    hide ExternalIndex;
    hide InboxClosed;
    var tx, st := s.txs[a.tid], AtServer(s, a.stamps);
    assert TxFits(s.db, tx);
    if tx.phase.Judged? && tx.job.Submit? {
      SubmitIsSerial(s.db, tx, st);
    } else if tx.phase.Judged? {
      RetryIsSerial(s.db, tx, st, a.since, a.failAt);
    }
  }
}
