/**
 * What a transaction in progress commits is what the same transaction, run alone on the committed tables, would commit.
 */
module Commits {
  import opened Prelude
  import opened Wallet
  import opened Wager
  import opened Settlement
  import opened Tables
  import opened Runs
  import opened Frozen
  import opened Interleaving
  import opened Statements

  predicate Committing(tx: Tx) {
    tx.phase.Judged? || (tx.phase.Closing? && tx.job.Submit?)
  }

  // ---------- what is committed ----------

  function CallOf(tx: Tx, st: Stamps): Call
    requires Committing(tx) && tx.job.Submit?
  {
    if tx.phase.Closing? then Call(tx.job.raw, tx.job.inbox, tx.phase.d.req.id, tx.phase.d.req.createdAt, st, false)
    else
      var q := tx.phase.work.row.d.req;
      Call(tx.job.raw, tx.job.inbox, q.id, q.createdAt, st, tx.phase.reference.Some?)
  }

  function RetryOf(tx: Tx, st: Stamps, since: Time, failAt: Time): Retry
    requires tx.phase.Judged? && tx.job.Resolve?
  {
    Retry(tx.job.claim, tx.job.maxAttempts, tx.job.ttl, tx.phase.work.clock, since, st, failAt,
      tx.phase.reference.Some?)
  }

  /** The transaction as one of a sequential run. A foreign reference was seen exactly if one was read. */
  function Serial(tx: Tx, st: Stamps, since: Time, failAt: Time): Op
    requires Committing(tx)
  {
    if tx.job.Submit? then OpProcess(CallOf(tx, st)) else OpRetry(RetryOf(tx, st, since, failAt))
  }

  /** The writes and the answer, computed from what the transaction holds. */
  function Effects(db: Db, tx: Tx, st: Stamps, since: Time, failAt: Time): Result<(Db, Reply)>
    requires Shape(db) && TxFits(db, tx) && Committing(tx)
  {
    match tx.phase
    case Closing(d, _, seen) => Ok((CompleteInbox(db, tx.job.inbox, d.req.id, st.dbNow), ResultOf(d, seen, true)))
    case Judged(k, reference, reversed) =>
      if tx.job.Submit? then Finish(db, CallOf(tx, st), k.w, k.row, reference, reversed)
      else FinishRetry(db, RetryOf(tx, st, since, failAt), k.w, Attempted(k.row), reference, reversed)
  }

  // ---------- reads that are still right ----------

  /** Evaluate looks at a reference's state in the same wallet only, and at `reversed` only with a reference. */
  lemma SameSettlement(w: WalletData, d: WagerData, trace: Trace, r: Option<WagerData>, r': Option<WagerData>, b: bool,
          b': bool, expired: bool, st: Stamps)
    requires d.req.refExternal == "" ==> r == None && r' == None
    requires r.Some? == r'.Some?
    requires r.Some? ==> r.value.req == r'.value.req && (r.value.req.walletId == d.req.walletId ==> r == r' && b == b')
    ensures Settle(w, d, trace, r, b, expired, st) == Settle(w, d, trace, r', b', expired, st)
  {
    hide SettlePending;
    hide SettleRejected;
    hide SettleAccepted;
    hide ValidWager;
    hide Effect;
    if r.Some? && r.value.req.walletId != d.req.walletId {
      ForeignReferenceIsStateless(w, d, r.value, r'.value, b, b');
    }
  }

  /** What the judged transaction read amounts to what a transaction run now reads. */
  lemma ReadsStillRight(db: Db, job: Job, k: Work, reference: Option<WagerData>, reversed: bool, expired: bool,
          st: Stamps)
    requires ReferenceSeen(db, job, k, reference) && k.row.d.req.walletId == k.w.id
    requires var view := View(db, job, k.row);
      SameWallet(k, reference) ==> reversed == Reversed(view.wagers, reference.value.req.id)
    ensures var view := View(db, job, k.row);
      var now := ReadReference(view, k.row.d.req, reference.Some?);
      Settle(k.w, k.row.d, k.row.trace, reference, reversed, expired, st) ==
      Settle(k.w, k.row.d, k.row.trace, now, ReadReversed(view.wagers, now), expired, st)
  {
    hide Settle;
    var view := View(db, job, k.row);
    var now := ReadReference(view, k.row.d.req, reference.Some?);
    SameSettlement(k.w, k.row.d, k.row.trace, reference, now, reversed, ReadReversed(view.wagers, now), expired, st);
  }

  // ---------- each commit is serial ----------

  lemma NewIsFresh(db: Db, c: Command, row: WagerRow, id: Id, at: Time)
    requires Shape(db) && c.kind.Some? && Insertable(db, row) && row.d.req == RequestOf(c, id, at)
    ensures FindIdentity(db, c) == Absent
  {
  }

  lemma ReachesNew(db: Db, call: Call, c: Command)
    requires Shape(db) && NormalizeCommand(call.cmd) == Ok(c) && ReserveInbox(db, call.inbox) == Tables.Reserved
    requires c.kind.Some? && FindIdentity(db, c) == Absent
    ensures ProcessWager(db, call) == ProcessNew(db, call, c)
  {
    hide NormalizeCommand;
    hide FindIdentity;
    hide ReserveInbox;
    hide ProcessNew;
    hide Placed;
    hide InboxClosed;
  }

  /** The row that the transaction inserted is the one a new attempt would insert. */
  lemma ReachesFinish(db: Db, call: Call, c: Command, w: WalletData, row: WagerRow)
    requires Shape(db) && c.kind.Some? && FindIdentity(db, c) == Absent && Shape(Insert(db, row))
    requires HoldsWallet(db, w) && c.walletId == w.id && c.playerId == w.playerId
    requires row.d.req == RequestOf(c, call.id, call.createdAt) && NewWager(row.d.req) == Ok(row.d) &&
      row == NewRow(row.d, c.trace) && call.id !in db.wagers
    ensures var inserted := Insert(db, row); var reference := ReadReference(inserted, row.d.req, call.seesForeign);
      ProcessNew(db, call, c) == Finish(db, call, w, row, reference, ReadReversed(inserted.wagers, reference))
  {
    hide FindIdentity;
    hide Finish;
    hide NewWager;
    hide InboxClosed;
  }

  lemma SameFinish(db: Db, call: Call, w: WalletData, row: WagerRow, r: Option<WagerData>, r': Option<WagerData>,
          b: bool, b': bool)
    requires w.id in db.ledger && w.id in db.outbox
    requires Settle(w, row.d, row.trace, r, b, false, call.stamps) ==
      Settle(w, row.d, row.trace, r', b', false, call.stamps)
    ensures Finish(db, call, w, row, r, b) == Finish(db, call, w, row, r', b')
  {
    hide Settle;
    hide Post;
    hide CompleteInbox;
  }

  /** A new command, judged on what it read under its locks. */
  lemma SubmitIsSerial(db: Db, tx: Tx, st: Stamps)
    requires Shape(db) && TxFits(db, tx) && tx.phase.Judged? && tx.job.Submit?
    ensures ProcessWager(db, CallOf(tx, st)) == Effects(db, tx, st, NO_TIME, NO_TIME)
  {
    hide Settle;
    hide NormalizeCommand;
    hide FindIdentity;
    hide NewWager;
    hide InboxClosed;
    hide Placed;
    hide ProcessWager;
    hide ProcessNew;
    hide Finish;
    hide ReserveInbox;
    var k, c := tx.phase.work, tx.job.cmd;
    var call, view := CallOf(tx, st), View(db, tx.job, k.row);
    NewIsFresh(db, c, k.row, k.row.d.req.id, k.row.d.req.createdAt);
    InboxIsFree(db, tx);
    ReachesNew(db, call, c);
    InsertShape(db, k.row);
    ReachesFinish(db, call, c, k.w, k.row);
    var now := ReadReference(view, k.row.d.req, call.seesForeign);
    ReadsStillRight(db, tx.job, k, tx.phase.reference, tx.phase.reversed, false, st);
    SameFinish(db, call, k.w, k.row, tx.phase.reference, now, tx.phase.reversed, ReadReversed(view.wagers, now));
  }

  /**
   * A replay's answer is the one that the command would get now: it was read terminal, or the wager waits to this
   * moment and its wallet is where it was when it was read.
   */
  predicate AnswerStands(db: Db, d: WagerData, seen: WalletData)
    requires d.req.id in db.wagers && d.req.walletId in db.wallets
  {
    var w := db.wallets[d.req.walletId];
    || d.status.Terminal()
    || (!db.wagers[d.req.id].d.status.Terminal() && seen.balance == w.balance && seen.version == w.version)
  }

  /** Two readings of one stored wager, answered with two readings of its wallet. */
  lemma SameAnswer(db: Db, d: WagerData, seen: WalletData)
    requires Placed(db.wagers, db.wallets) && Stored(db) && WasRead(db, d)
    ensures ResultOf(db.wagers[d.req.id].d, db.wallets[d.req.walletId], true) == ResultOf(d, seen, true) <==>
      AnswerStands(db, d, seen)
  {
    hide ValidRequest;
    assert ValidWager(db.wagers[d.req.id].d);
  }

  /**
   * A repeated command completes its message on the row it found, and answers serially exactly when its answer stands.
   */
  lemma ReplayIsSerial(db: Db, tx: Tx, st: Stamps)
    requires Shape(db) && Stored(db) && TxFits(db, tx) && tx.phase.Closing? && tx.job.Submit?
    ensures tx.phase.d.req.id in db.wagers && tx.phase.d.req.walletId in db.wallets
    ensures ProcessWager(db, CallOf(tx, st)).Ok? && Effects(db, tx, st, NO_TIME, NO_TIME).Ok?
    ensures ProcessWager(db, CallOf(tx, st)).value.0 == Effects(db, tx, st, NO_TIME, NO_TIME).value.0
    ensures tx.phase.locked.Some? ==> AnswerStands(db, tx.phase.d, tx.phase.seen)
    ensures ProcessWager(db, CallOf(tx, st)).value.1 == Effects(db, tx, st, NO_TIME, NO_TIME).value.1 <==>
      AnswerStands(db, tx.phase.d, tx.phase.seen)
  {
    hide NormalizeCommand;
    hide ReserveInbox;
    hide InboxClosed;
    hide ProcessNew;
    hide CompleteInbox;
    hide PayloadHashOf;
    hide ValidWager;
    hide Stored;
    hide ResultOf;
    hide AnswerStands;
    hide FindIdentity;
    InboxIsFree(db, tx);
    RepeatIsFound(db, tx.job.cmd, tx.phase.d.req.id);
    SameAnswer(db, tx.phase.d, tx.phase.seen);
  }

  /** The replay of a completed message answers serially exactly when the wager was read terminal or still waits. */
  lemma RecallIsSerial(db: Db, tx: Tx, call: Call)
    requires Shape(db) && Stored(db) && TxFits(db, tx) && tx.phase.Recalled?
    requires call.cmd == tx.job.raw && call.inbox == tx.job.inbox
    ensures tx.phase.d.req.id in db.wagers && tx.phase.d.req.walletId in db.wallets
    ensures var w := db.wallets[tx.phase.d.req.walletId];
      ProcessWager(db, call) == Ok((db, ResultOf(tx.phase.d, w, true))) <==> AnswerStands(db, tx.phase.d, w)
  {
    hide NormalizeCommand;
    hide ReserveInbox;
    hide ProcessIdentity;
    hide ValidMessage;
    hide ValidWager;
    hide Stored;
    hide ResultOf;
    hide AnswerStands;
    hide KeyIndex;
    hide ExternalIndex;
    hide InboxClosed;
    SameAnswer(db, tx.phase.d, db.wallets[tx.phase.d.req.walletId]);
  }

  lemma SameOutcome(row: WagerRow, w: WalletData, r: Retry, x: Option<WagerData>, x': Option<WagerData>, b: bool,
          b': bool)
    requires Settle(w, row.d, row.trace, x, b, Exhausted(row, r), r.stamps) ==
      Settle(w, row.d, row.trace, x', b', Exhausted(row, r), r.stamps)
    ensures RetryOutcome(row, w, r, x, b) == RetryOutcome(row, w, r, x', b')
  {
    hide Settle;
    hide EventsOf;
    hide Transitioned;
  }

  lemma RetryIsSerial(db: Db, tx: Tx, st: Stamps, since: Time, failAt: Time)
    requires Shape(db) && TxFits(db, tx) && tx.phase.Judged? && tx.job.Resolve?
    ensures RetryReference(db, RetryOf(tx, st, since, failAt)) == Effects(db, tx, st, since, failAt)
  {
    hide Settle;
    hide RetryOutcome;
    hide InboxClosed;
    hide Placed;
    hide KeyIndex;
    var k, r := tx.phase.work, RetryOf(tx, st, since, failAt);
    var row := Attempted(k.row);
    var now := ReadReference(db, row.d.req, r.seesForeign);
    ReadsStillRight(db, tx.job, k, tx.phase.reference, tx.phase.reversed, Exhausted(row, r), st);
    SameOutcome(row, k.w, r, tx.phase.reference, now, tx.phase.reversed, ReadReversed(db.wagers, now));
  }

  lemma InboxIsFree(db: Db, tx: Tx)
    requires TxFits(db, tx) && tx.job.Submit? && Committing(tx)
    ensures ReserveInbox(db, tx.job.inbox) == Tables.Reserved
  {
    hide NormalizeCommand;
    hide PhaseFits;
    hide ValidMessage;
  }
}
