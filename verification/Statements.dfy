/** One statement of one transaction: what it read is true of the committed tables, and locks stay apart. */
module Statements {
  import opened Prelude
  import opened Wallet
  import opened Wager
  import opened Tables
  import opened Accounts
  import opened Reachable
  import opened Runs
  import opened Frozen
  import opened Interleaving

  /** No row is stored inconsistent, or still PENDING, or under the hash of another content. */
  ghost predicate Stored(db: Db) {
    forall id {:trigger db.wagers[id]} :: id in db.wagers ==>
      ValidWager(db.wagers[id].d) && db.wagers[id].d.status != PENDING && Hashed(db.wagers[id].d.req)
  }

  lemma RowIsStored(db: Db, id: Id)
    requires Inv(db) && id in db.wagers
    ensures ValidWager(db.wagers[id].d) && db.wagers[id].d.status != PENDING
  {
    hide AllGood;
    hide KeyIndex;
    hide ExternalIndex;
    hide InboxClosed;
    var a := AccountOf(db, db.wagers[id].d.req.walletId);
    GoodAccount(db, a.wallet.id);
    assert id in a.wagers && a.wagers[id].d == db.wagers[id].d;
    assert RowFits(a.wallet, id, a.wagers[id]);
  }

  lemma RunIsStored(ops: seq<Op>)
    ensures Stored(Run(ops))
  {
    hide Inv;
    hide Run;
    hide Hashed;
    var db := Run(ops);
    forall id | id in db.wagers
      ensures ValidWager(db.wagers[id].d) && db.wagers[id].d.status != PENDING && Hashed(db.wagers[id].d.req)
    {
      RowIsStored(db, id);
      RunIsHashed(ops, id);
    }
  }

  lemma FoundNames(db: Db, c: Command)
    requires Shape(db) && c.kind.Some? && FindIdentity(db, c).Found?
    ensures var d := FindIdentity(db, c).d; Repeats(c, d) && KeyNames(db, c, d.req.id) && d.req.kind != OPENING
  {
    hide PayloadHashOf;
    hide InboxClosed;
  }

  /** A found identity is stored as read, under the command's own key and wallet. */
  lemma FoundFits(db: Db, c: Command)
    requires Shape(db) && Stored(db) && c.kind.Some?
    ensures FindIdentity(db, c).Found? ==>
      var d := FindIdentity(db, c).d;
      ReplayFits(db, c, d) && d.req.walletId == c.walletId && db.wagers[d.req.id].d == d
  {
    hide FindIdentity;
    hide Repeats;
    hide KeyNames;
    hide ValidWager;
    hide Hashed;
    hide Placed;
    hide InboxClosed;
    if FindIdentity(db, c).Found? {
      var d := FindIdentity(db, c).d;
      FoundIsStored(db, c);
      FoundNames(db, c);
      SameWalletAs(c, d);
    }
  }

  lemma SameWalletAs(c: Command, d: WagerData)
    requires Repeats(c, d) && d.req.kind != OPENING && Hashed(d.req)
    ensures d.req.walletId == c.walletId
  {
    RepeatHasContent(c, d);
  }

  lemma TakenIsNotAbsent(db: Db, c: Command)
    requires Shape(db) && c.kind.Some? && IdentityTaken(db, c)
    ensures FindIdentity(db, c) != Absent
  {
  }

  /** No stored message is incomplete. */
  lemma StoredIsComplete(db: Db, inbox: Option<InboxMessage>)
    requires InboxClosed(db.wagers, db.inbox)
    ensures ReserveInbox(db, inbox).Refused? ==> ReserveInbox(db, inbox).code != UNAVAILABLE
  {
  }

  /** The second findIdentity always finds what the insert conflicted with, and no stored message is incomplete. */
  lemma NeverStranded(db: Db, tx: Tx, id: Id, at: Time, clock: Time)
    requires Shape(db) && TxFits(db, tx)
    ensures !NextPhase(db, tx, id, at, clock).Stranded?
  {
    hide NormalizeCommand;
    hide ReserveInbox;
    hide FindIdentity;
    hide WorkFits;
    hide ReferenceSeen;
    hide Replays;
    hide AnswerFits;
    hide WasRead;
    hide NewWager;
    hide Claimed;
    hide Reversed;
    hide Placed;
    hide KeyIndex;
    hide InboxClosed;
    hide LookupReference;
    if tx.phase.Conflicted? { TakenIsNotAbsent(db, tx.job.cmd); }
    if tx.job.Submit? { StoredIsComplete(db, tx.job.inbox); }
  }

  lemma InsertedFits(db: Db, tx: Tx, w: WalletData, id: Id, at: Time, clock: Time)
    requires Shape(db) && TxFits(db, tx) && tx.phase == Locked(w) && tx.job.Submit? && id !in db.wagers
    requires NextPhase(db, tx, id, at, clock).Working?
    ensures WorkFits(db, tx.job, NextPhase(db, tx, id, at, clock).work)
  {
    hide NormalizeCommand;
    hide NewWager;
    hide PayloadHashOf;
    hide ValidMessage;
    hide InboxClosed;
    hide KeyIndex;
    hide ExternalIndex;
    NewIsFresh(RequestOf(tx.job.cmd, id, at));
  }

  lemma NewIsFresh(q: Request)
    requires NewWager(q).Ok?
    ensures NewWager(q).value == Fresh(q) && q.kind != OPENING
  {
  }

  /** The transaction's own insert keeps the external index right. */
  lemma ViewIndexed(db: Db, job: Job, k: Work)
    requires Shape(db) && WorkFits(db, job, k)
    ensures var view := View(db, job, k.row);
      Placed(view.wagers, view.wallets) && ExternalIndex(view.wagers, view.byExternal)
  {
    hide NewWager;
    hide NormalizeCommand;
    hide PayloadHashOf;
    hide Claimed;
    if job.Submit? { InsertShape(db, k.row); }
  }

  lemma LookedFits(db: Db, job: Job, k: Work)
    requires Shape(db) && WorkFits(db, job, k)
    ensures ReferenceSeen(db, job, k, LookupReference(View(db, job, k.row), k.row.d.req))
  {
    ViewIndexed(db, job, k);
  }

  /** Locking a reference of the same wallet reads the same row again. */
  lemma RelockReadsSame(db: Db, job: Job, k: Work, reference: Option<WagerData>)
    requires Shape(db) && WorkFits(db, job, k) && ReferenceSeen(db, job, k, reference) && SameWallet(k, reference)
    ensures var view := View(db, job, k.row);
      reference.value.req.id in view.wagers && view.wagers[reference.value.req.id].d == reference.value
  {
    ViewIndexed(db, job, k);
    FoundReference(View(db, job, k.row), k.row.d.req);
  }

  // ---------- a statement keeps its transaction fit ----------

  lemma PhaseStaysFit(db: Db, tx: Tx, id: Id, at: Time, clock: Time)
    requires Shape(db) && Stored(db) && TxFits(db, tx) && id !in db.wagers
    ensures PhaseFits(db, tx.(phase := NextPhase(db, tx, id, at, clock)))
  {
    if tx.phase.Locked? {
      LockedStaysFit(db, tx, tx.phase.w, id, at, clock);
    } else if tx.AtWork() {
      WorkStaysFit(db, tx, id, at, clock);
    } else if tx.phase.InboxHit? || tx.phase.Recalled? {
      RecallStaysFit(db, tx, id, at, clock);
    } else if tx.job.Submit? {
      SubmitStaysFit(db, tx, id, at, clock);
    } else {
      hide NormalizeCommand;
      hide ReplayFits;
      hide AnswerFits;
      hide KeyIndex;
      hide ExternalIndex;
      hide InboxClosed;
      hide Placed;
      hide Stored;
    }
  }

  lemma WorkStaysFit(db: Db, tx: Tx, id: Id, at: Time, clock: Time)
    requires Shape(db) && TxFits(db, tx) && tx.AtWork()
    ensures PhaseFits(db, tx.(phase := NextPhase(db, tx, id, at, clock)))
  {
    hide NormalizeCommand;
    hide WorkFits;
    hide ReferenceSeen;
    hide Placed;
    hide KeyIndex;
    hide ExternalIndex;
    hide InboxClosed;
    match tx.phase
    case Working(k) => LookedFits(db, tx.job, k);
    case Looked(k, reference) => if SameWallet(k, reference) { RelockReadsSame(db, tx.job, k, reference); }
    case _ =>
  }

  /** The replay of a completed message answers about the wager that the message names. */
  lemma RecallStaysFit(db: Db, tx: Tx, id: Id, at: Time, clock: Time)
    requires Shape(db) && Stored(db) && TxFits(db, tx) && (tx.phase.InboxHit? || tx.phase.Recalled?)
    ensures PhaseFits(db, tx.(phase := NextPhase(db, tx, id, at, clock)))
  {
    hide NormalizeCommand;
    hide ReserveInbox;
    hide ValidWager;
    hide ValidMessage;
    hide ResultOf;
    hide AnswerFits;
    hide Hashed;
    hide KeyIndex;
    hide ExternalIndex;
    hide InboxClosed;
    if tx.phase.Recalled? { RecalledAnswersFit(db, tx); }
  }

  lemma RecalledAnswersFit(db: Db, tx: Tx)
    requires Shape(db) && TxFits(db, tx) && tx.phase.Recalled?
    ensures tx.phase.d.req.walletId in db.wallets
    ensures AnswerFits(db, tx.job, ResultOf(tx.phase.d, db.wallets[tx.phase.d.req.walletId], true))
  {
    hide NormalizeCommand;
    hide ReserveInbox;
    hide ValidWager;
    hide ValidMessage;
    hide KeyIndex;
    hide ExternalIndex;
    hide InboxClosed;
  }

  lemma SubmitStaysFit(db: Db, tx: Tx, id: Id, at: Time, clock: Time)
    requires Shape(db) && Stored(db) && TxFits(db, tx) && tx.job.Submit? && !tx.AtWork()
    requires !tx.phase.Locked? && !tx.phase.InboxHit? && !tx.phase.Recalled?
    ensures PhaseFits(db, tx.(phase := NextPhase(db, tx, id, at, clock)))
  {
    hide NextPhase;
    hide PhaseFits;
    hide TxFits;
    hide Stored;
    hide Shape;
    if tx.phase.Reserved? || tx.phase.Conflicted? {
      FoundStaysFit(db, tx, id, at, clock);
    } else if tx.phase.Replaying? || tx.phase.Replayed? {
      ReplayStaysFit(db, tx, id, at, clock);
    } else if tx.phase.Begun? {
      BegunStaysFit(db, tx, id, at, clock);
    } else {
      MissedStaysFit(db, tx, id, at, clock);
    }
  }

  lemma BegunStaysFit(db: Db, tx: Tx, id: Id, at: Time, clock: Time)
    requires Shape(db) && TxFits(db, tx) && tx.job.Submit? && tx.phase.Begun?
    ensures PhaseFits(db, tx.(phase := NextPhase(db, tx, id, at, clock)))
  {
    hide NormalizeCommand;
    hide KeyIndex;
    hide ExternalIndex;
    hide Placed;
  }

  /** A wallet is locked as it stands; a transaction that is over, or about to commit, stays where it is. */
  lemma MissedStaysFit(db: Db, tx: Tx, id: Id, at: Time, clock: Time)
    requires Shape(db) && TxFits(db, tx) && tx.job.Submit? && (tx.phase.Missed? || tx.phase.Closing? || tx.Over())
    ensures PhaseFits(db, tx.(phase := NextPhase(db, tx, id, at, clock)))
  {
    hide NormalizeCommand;
    hide ReplaysSeen;
    hide AnswerFits;
    hide KeyIndex;
    hide ExternalIndex;
    hide InboxClosed;
  }

  lemma FoundStaysFit(db: Db, tx: Tx, id: Id, at: Time, clock: Time)
    requires Shape(db) && Stored(db) && TxFits(db, tx) && tx.job.Submit? && (tx.phase.Reserved? || tx.phase.Conflicted?)
    ensures PhaseFits(db, tx.(phase := NextPhase(db, tx, id, at, clock)))
  {
    hide WasRead;
    hide NewWager;
    hide PayloadHashOf;
    hide Placed;
    hide KeyIndex;
    hide ExternalIndex;
    hide NormalizeCommand;
    hide ReplayFits;
    hide FindIdentity;
    hide Stored;
    hide InboxClosed;
    NeverStranded(db, tx, id, at, clock);
    FoundFits(db, tx.job.cmd);
  }

  lemma ReplayStaysFit(db: Db, tx: Tx, id: Id, at: Time, clock: Time)
    requires Shape(db) && TxFits(db, tx) && tx.job.Submit? && (tx.phase.Replaying? || tx.phase.Replayed?)
    ensures PhaseFits(db, tx.(phase := NextPhase(db, tx, id, at, clock)))
  {
    hide NormalizeCommand;
    hide ReplayFits;
    hide KeyIndex;
    hide ExternalIndex;
    hide InboxClosed;
  }

  lemma LockedStaysFit(db: Db, tx: Tx, w: WalletData, id: Id, at: Time, clock: Time)
    requires Shape(db) && TxFits(db, tx) && id !in db.wagers && tx.phase == Locked(w)
    ensures PhaseFits(db, tx.(phase := NextPhase(db, tx, id, at, clock)))
  {
    hide NormalizeCommand;
    hide NewWager;
    hide PayloadHashOf;
    hide ValidMessage;
    hide WorkFits;
    hide Placed;
    hide KeyIndex;
    hide ExternalIndex;
    hide InboxClosed;
    if tx.job.Resolve? {
      ClaimedFits(db, tx, w, id, at, clock);
    } else if NextPhase(db, tx, id, at, clock).Working? {
      InsertedFits(db, tx, w, id, at, clock);
    }
  }

  lemma ClaimedFits(db: Db, tx: Tx, w: WalletData, id: Id, at: Time, clock: Time)
    requires Shape(db) && TxFits(db, tx) && tx.phase == Locked(w) && tx.job.Resolve?
    ensures NextPhase(db, tx, id, at, clock).Working? ==> WorkFits(db, tx.job, NextPhase(db, tx, id, at, clock).work)
  {
    hide KeyIndex;
    hide ExternalIndex;
    hide InboxClosed;
  }

  lemma StatementFits(db: Db, tx: Tx, id: Id, at: Time, clock: Time)
    requires Shape(db) && Stored(db) && TxFits(db, tx) && id !in db.wagers
    ensures TxFits(db, tx.(phase := NextPhase(db, tx, id, at, clock)))
  {
    hide NormalizeCommand;
    hide PhaseFits;
    hide FindIdentity;
    hide NewWager;
    hide ValidMessage;
    hide Stored;
    PhaseStaysFit(db, tx, id, at, clock);
    MessageStaysFit(db, tx, id, at, clock);
  }

  /** The reserved message is valid and not committed by anyone. */
  lemma MessageStaysFit(db: Db, tx: Tx, id: Id, at: Time, clock: Time)
    requires Shape(db) && TxFits(db, tx)
    ensures var next := tx.(phase := NextPhase(db, tx, id, at, clock));
      && (next.job.Submit? && next.job.inbox.Some? && !next.phase.Begun? && !next.phase.Failed? ==>
          ValidMessage(next.job.inbox.value))
      && (InboxHeld(next).Some? ==> InboxHeld(next).value !in db.inbox)
  {
    hide NormalizeCommand;
    hide FindIdentity;
    hide NewWager;
    hide WorkFits;
    hide ReferenceSeen;
    hide ReplayFits;
    hide WasRead;
    hide AnswerFits;
    hide KeyIndex;
    hide ExternalIndex;
    hide Placed;
  }
}
