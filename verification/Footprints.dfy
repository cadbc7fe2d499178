/** What a commit changes: the rows that its transaction has locked or inserted, and nothing else. */
module Footprints {
  import opened Prelude
  import opened Wager
  import opened Settlement
  import opened Tables
  import opened Runs
  import opened Growth
  import opened Interleaving
  import opened Commits
  import opened Isolation

  predicate OwnRow(tx: Tx, id: Id) {
    tx.AtWork() && id == tx.phase.work.row.d.req.id
  }

  ghost predicate TouchesOwn(db: Db, db': Db, tx: Tx) {
    && (forall w :: w in db.wallets && WalletHeld(tx) != Some(w) ==>
      w in db'.wallets && db'.wallets[w] == db.wallets[w])
    && TouchesOwnRow(db.wagers, db'.wagers, tx)
    && (forall k :: k in db'.byKey && k !in db.byKey ==> RowHeld(tx).Some? && k == KeyOf(RowHeld(tx).value))
    && (forall k :: k in db'.byExternal && k !in db.byExternal ==>
      RowHeld(tx).Some? && k == ExternalOf(RowHeld(tx).value))
    && (forall k :: k in db'.inbox && k !in db.inbox ==> InboxHeld(tx) == Some(k))
  }

  ghost predicate TouchesOwnRow(before: map<Id, WagerRow>, after: map<Id, WagerRow>, tx: Tx) {
    && (forall id {:trigger before[id]} {:trigger after[id]} :: id in before && !OwnRow(tx, id) ==>
      id in after && after[id] == before[id])
    && (forall id {:trigger after[id]} {:trigger id in after} :: id in after && id !in before ==>
      OwnRow(tx, id) && tx.job.Submit?)
    && (forall id {:trigger after[id]} :: id in after && OwnRow(tx, id) ==> after[id].d.req == tx.phase.work.row.d.req)
  }

  // ---------- effects ----------

  lemma CompletionTouches(db: Db, db': Db, tx: Tx, id: Id, at: Time)
    requires TouchesOwn(db, db', tx) && db'.inbox == db.inbox
    requires tx.job.Submit? && (tx.job.inbox.Some? ==> InboxHeld(tx) == Some(MessageKey(tx.job.inbox.value)))
    ensures TouchesOwn(db, CompleteInbox(db', tx.job.inbox, id, at), tx)
  {
    hide TouchesOwnRow;
  }

  lemma PostTouches(db: Db, db': Db, tx: Tx, row': WagerRow, out: Outcome)
    requires TouchesOwn(db, db', tx) && tx.AtWork() && row'.d.req == tx.phase.work.row.d.req &&
      WalletHeld(tx) == Some(out.wallet.id)
    requires row'.d.req.id in db'.wagers && out.wallet.id in db'.ledger && out.wallet.id in db'.outbox
    ensures TouchesOwn(db, Post(db', row', out), tx)
  {
  }

  lemma InsertTouches(db: Db, tx: Tx)
    requires tx.AtWork() && tx.job.Submit?
    ensures TouchesOwn(db, Insert(db, tx.phase.work.row), tx)
  {
  }

  lemma FinishTouches(db: Db, tx: Tx, st: Stamps)
    requires Shape(db) && TxFits(db, tx) && tx.phase.Judged? && tx.job.Submit? &&
      Effects(db, tx, st, NO_TIME, NO_TIME).Ok?
    ensures TouchesOwn(db, Effects(db, tx, st, NO_TIME, NO_TIME).value.0, tx)
  {
    hide Finish;
    hide NormalizeCommand;
    hide NewWager;
    hide ReferenceSeen;
    hide Insertable;
    hide Reversed;
    hide PayloadHashOf;
    hide TouchesOwn;
    hide CompleteInbox;
    hide Placed;
    hide KeyIndex;
    hide ExternalIndex;
    hide InboxClosed;
    var k := tx.phase.work;
    var row', out := FinishIs(db, CallOf(tx, st), k.w, k.row, tx.phase.reference, tx.phase.reversed);
    InsertTouches(db, tx);
    PostTouches(db, Insert(db, k.row), tx, row', out);
    CompletionTouches(db, Post(Insert(db, k.row), row', out), tx, k.row.d.req.id, st.dbNow);
  }

  /** Before anything is written. */
  lemma NothingTouches(db: Db, tx: Tx)
    requires tx.AtWork() && tx.job.Resolve? &&
      (tx.phase.work.row.d.req.id in db.wagers ==>
        db.wagers[tx.phase.work.row.d.req.id].d.req == tx.phase.work.row.d.req)
    ensures TouchesOwn(db, db, tx)
  {
  }

  lemma RetryTouches(db: Db, tx: Tx, st: Stamps, since: Time, failAt: Time)
    requires Shape(db) && TxFits(db, tx) && tx.phase.Judged? && tx.job.Resolve? &&
      Effects(db, tx, st, since, failAt).Ok?
    ensures TouchesOwn(db, Effects(db, tx, st, since, failAt).value.0, tx)
  {
    hide RetryOutcome;
    hide ReferenceSeen;
    hide KeyIndex;
    hide ExternalIndex;
    hide InboxClosed;
    hide Reversed;
    hide TouchesOwn;
    hide Post;
    hide Claimed;
    var k, r := tx.phase.work, RetryOf(tx, st, since, failAt);
    RetryRow(Attempted(k.row), k.w, r, tx.phase.reference, tx.phase.reversed);
    var (row', out) := RetryOutcome(Attempted(k.row), k.w, r, tx.phase.reference, tx.phase.reversed).value;
    NothingTouches(db, tx);
    PostTouches(db, db, tx, row', out);
  }

  lemma ReplayTouches(db: Db, tx: Tx, st: Stamps)
    requires tx.phase.Closing? && tx.job.Submit?
    ensures TouchesOwn(db, CompleteInbox(db, tx.job.inbox, tx.phase.d.req.id, st.dbNow), tx)
  {
    CompletionTouches(db, db, tx, tx.phase.d.req.id, st.dbNow);
  }

  lemma EffectsTouch(db: Db, tx: Tx, st: Stamps, since: Time, failAt: Time)
    requires Shape(db) && TxFits(db, tx) && Committing(tx) && Effects(db, tx, st, since, failAt).Ok?
    ensures TouchesOwn(db, Effects(db, tx, st, since, failAt).value.0, tx)
  {
    hide TouchesOwn;
    hide Finish;
    hide FinishRetry;
    hide PhaseFits;
    hide NormalizeCommand;
    hide CompleteInbox;
    hide Placed;
    hide KeyIndex;
    hide ExternalIndex;
    hide InboxClosed;
    if tx.phase.Closing? {
      ReplayTouches(db, tx, st);
    } else if tx.job.Submit? {
      FinishTouches(db, tx, st);
    } else {
      RetryTouches(db, tx, st, since, failAt);
    }
  }

  // ---------- what stays of the others ----------

  /** A stored row that a transaction has locked is in the wallet that it has locked. */
  lemma LockedRowIsOwn(db: Db, tx: Tx, id: Id)
    requires Shape(db) && TxFits(db, tx) && RowLocked(tx, id) && id in db.wagers
    ensures WalletHeld(tx) == Some(db.wagers[id].d.req.walletId)
  {
    hide NormalizeCommand;
    hide NewWager;
    hide PayloadHashOf;
    hide Claimed;
    hide ReferenceSeen;
    hide KeyIndex;
    hide ExternalIndex;
    hide InboxClosed;
    hide Reversed;
    var k := tx.phase.work;
    if id != k.row.d.req.id {
      SeenIsStored(db, tx.job, k, tx.phase.reference);
    }
  }

  lemma OwnRowIsOwn(db: Db, tx: Tx)
    requires Shape(db) && TxFits(db, tx) && tx.AtWork()
    ensures WalletHeld(tx) == Some(tx.phase.work.row.d.req.walletId)
  {
    hide NormalizeCommand;
    hide NewWager;
    hide PayloadHashOf;
    hide Claimed;
    hide ReferenceSeen;
    hide Placed;
    hide KeyIndex;
    hide ExternalIndex;
    hide InboxClosed;
    hide Reversed;
  }

  lemma LocksSpared(db: Db, db': Db, tx: Tx, other: Tx)
    requires Shape(db) && TxFits(db, tx) && TxFits(db, other) && Apart(other, tx) &&
      TouchesOwnRow(db.wagers, db'.wagers, tx)
    ensures forall id {:trigger RowLocked(other, id)} :: RowLocked(other, id) && id in db.wagers ==>
      id in db'.wagers && db'.wagers[id] == db.wagers[id]
  {
    hide TxFits;
    hide RowLocked;
    hide WalletHeld;
    hide Placed;
    hide KeyIndex;
    hide ExternalIndex;
    hide InboxClosed;
    forall id | RowLocked(other, id) && id in db.wagers ensures id in db'.wagers && db'.wagers[id] == db.wagers[id] {
      LockedRowIsOwn(db, other, id);
      if OwnRow(tx, id) { OwnRowLocked(tx, id); LockedRowIsOwn(db, tx, id); }
    }
  }

  lemma OwnRowLocked(tx: Tx, id: Id)
    requires OwnRow(tx, id)
    ensures RowLocked(tx, id)
  {
  }

  lemma TouchSpares(db: Db, db': Db, tx: Tx, other: Tx)
    requires Shape(db) && TxFits(db, tx) && TxFits(db, other) && Apart(other, tx) && TouchesOwn(db, db', tx)
    ensures Spares(db, db', other)
  {
    hide TxFits;
    hide RowLocked;
    hide WalletHeld;
    hide InboxHeld;
    hide Placed;
    hide KeyIndex;
    hide ExternalIndex;
    hide InboxClosed;
    if tx.AtWork() { OwnRowIsOwn(db, tx); }
    LocksSpared(db, db', tx, other);
  }
}
