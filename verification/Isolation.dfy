/** One transaction's commit leaves intact everything that another one in progress relies on. */
module Isolation {
  import opened Prelude
  import opened Wager
  import opened Tables
  import opened Accounts
  import opened Reachable
  import opened Growth
  import opened Frozen
  import opened Interleaving
  import opened Statements

  /** The change from db to db' touches nothing that tx has locked. */
  ghost predicate Spares(db: Db, db': Db, tx: Tx) {
    && (WalletHeld(tx).Some? ==> SparesWallet(db, db', WalletHeld(tx).value))
    && (InboxHeld(tx).Some? && InboxHeld(tx).value in db'.inbox ==> InboxHeld(tx).value in db.inbox)
    && (RowHeld(tx).Some? ==> SparesIdentity(db, db', RowHeld(tx).value))
    && (forall id {:trigger RowLocked(tx, id)} :: RowLocked(tx, id) && id in db.wagers ==>
      id in db'.wagers && db'.wagers[id] == db.wagers[id])
  }

  /** The wallet row and the wagers of the wallet, except for claims. */
  ghost predicate SparesWallet(db: Db, db': Db, wid: Id) {
    && (wid in db.wallets ==> wid in db'.wallets && db'.wallets[wid] == db.wallets[wid])
    && (forall id {:trigger db'.wagers[id]} {:trigger db.wagers[id]} ::
      id in db'.wagers && db'.wagers[id].d.req.walletId == wid ==>
        id in db.wagers && db.wagers[id].d == db'.wagers[id].d)
  }

  predicate SparesIdentity(db: Db, db': Db, q: Request) {
    && (q.id in db'.wagers ==> q.id in db.wagers)
    && (KeyOf(q) in db'.byKey ==> KeyOf(q) in db.byKey)
    && (ExternalOf(q) in db'.byExternal ==> ExternalOf(q) in db.byExternal)
  }

  // ---------- spared transactions ----------

  /** A processed reversal is in the wallet of the wager that it reverses. */
  lemma ReversalIsLocal(db: Db, r: Id, id: Id)
    requires Inv(db) && r in db.wagers && Reverses(db.wagers[r].d, id) && id in db.wagers
    ensures db.wagers[id].d.req.walletId == db.wagers[r].d.req.walletId
  {
    hide Inv;
    ReversalIsStored(db, r);
  }

  lemma SameReversed(db: Db, db': Db, job: Job, row: WagerRow, id: Id)
    requires Inv(db) && Inv(db') && Grows(db, db') && id in db.wagers
    requires SparesWallet(db, db', db.wagers[id].d.req.walletId)
    requires job.Submit? ==> row.d.req.id !in db'.wagers && row.d.status == PENDING
    ensures Reversed(View(db, job, row).wagers, id) == Reversed(View(db', job, row).wagers, id)
  {
    hide Inv;
    var view, view' := View(db, job, row), View(db', job, row);
    assert RowGrows(db.wagers[id], db'.wagers[id]);
    if Reversed(view.wagers, id) {
      var r :| r in view.wagers && Reverses(view.wagers[r].d, id);
      assert RowGrows(db.wagers[r], db'.wagers[r]);
      assert Reverses(view'.wagers[r].d, id);
    }
    if Reversed(view'.wagers, id) {
      var r :| r in view'.wagers && Reverses(view'.wagers[r].d, id);
      ReversalIsLocal(db', r, id);
      assert Reverses(view.wagers[r].d, id);
    }
  }

  lemma SparedWork(db: Db, db': Db, tx: Tx, k: Work)
    requires Placed(db.wagers, db.wallets) && Spares(db, db', tx) && WorkFits(db, tx.job, k) && tx.AtWork() &&
      tx.phase.work == k
    ensures WorkFits(db', tx.job, k)
  {
    hide NewWager;
    hide Claimed;
    hide PayloadHashOf;
    hide ValidRequest;
    assert WalletHeld(tx) == Some(k.w.id);
    if tx.job.Submit? {
      assert RowHeld(tx) == Some(k.row.d.req);
      assert SparesIdentity(db, db', k.row.d.req);
    } else {
      assert RowLocked(tx, k.row.d.req.id);
    }
  }

  /** What the reference lookup finds in one's own wallet stays; elsewhere only a request counts. */
  lemma SeenStays(view: Db, view': Db, q: Request, reference: Option<WagerData>)
    requires ExternalIndex(view.wagers, view.byExternal) && ExternalIndex(view'.wagers, view'.byExternal)
    requires forall k :: k in view.byExternal ==> k in view'.byExternal && view'.byExternal[k] == view.byExternal[k]
    requires RowsGrow(view.wagers, view'.wagers) && SparesWallet(view, view', q.walletId)
    requires SeenRight(view, q, reference)
    ensures SeenRight(view', q, reference)
  {
    var key := (q.providerId, q.refExternal);
    if q.refExternal != "" && key in view'.byExternal {
      var id := view'.byExternal[key];
      assert id in view.wagers && view.wagers[id].d == view'.wagers[id].d ==> key in view.byExternal;
      assert key in view.byExternal ==> RowGrows(view.wagers[id], view'.wagers[id]);
    }
  }

  lemma ViewRowsGrow(db: Db, db': Db, job: Job, row: WagerRow)
    requires RowsGrow(db.wagers, db'.wagers)
    requires job.Submit? ==> row.d.req.id !in db.wagers
    ensures RowsGrow(View(db, job, row).wagers, View(db', job, row).wagers)
  {
  }

  lemma ViewSpared(db: Db, db': Db, job: Job, row: WagerRow)
    requires SparesWallet(db, db', row.d.req.walletId)
    ensures SparesWallet(View(db, job, row), View(db', job, row), row.d.req.walletId)
  {
  }

  lemma ViewIndexGrows(db: Db, db': Db, job: Job, row: WagerRow)
    requires Grows(db, db')
    ensures var view, view' := View(db, job, row), View(db', job, row);
      forall k :: k in view.byExternal ==> k in view'.byExternal && view'.byExternal[k] == view.byExternal[k]
  {
    hide RowsGrow;
  }

  lemma SparedReference(db: Db, db': Db, tx: Tx, k: Work, reference: Option<WagerData>)
    requires Shape(db) && Shape(db') && Grows(db, db') && Spares(db, db', tx) && tx.AtWork() && tx.phase.work == k
    requires WorkFits(db, tx.job, k) && WorkFits(db', tx.job, k) && ReferenceSeen(db, tx.job, k, reference)
    ensures ReferenceSeen(db', tx.job, k, reference)
  {
    ViewIndexed(db', tx.job, k);
    OwnWallet(db, db', tx, k);
    FreshRow(db, tx.job, k);
    hide Shape;
    hide WorkFits;
    hide Grows;
    hide Spares;
    hide SeenRight;
    hide SparesWallet;
    hide ExternalIndex;
    ViewsGrow(db, db', tx.job, k.row);
    SeenStays(View(db, tx.job, k.row), View(db', tx.job, k.row), k.row.d.req, reference);
  }

  lemma OwnWallet(db: Db, db': Db, tx: Tx, k: Work)
    requires Spares(db, db', tx) && tx.AtWork() && tx.phase.work == k && k.row.d.req.walletId == k.w.id
    ensures SparesWallet(db, db', k.row.d.req.walletId)
  {
    assert WalletHeld(tx) == Some(k.w.id);
  }

  lemma FreshRow(db: Db, job: Job, k: Work)
    requires WorkFits(db, job, k)
    ensures k.row.d.req.walletId == k.w.id && (job.Submit? ==> k.row.d.req.id !in db.wagers)
  {
  }

  lemma ViewsGrow(db: Db, db': Db, job: Job, row: WagerRow)
    requires Grows(db, db') && SparesWallet(db, db', row.d.req.walletId) && (job.Submit? ==> row.d.req.id !in db.wagers)
    ensures var view, view' := View(db, job, row), View(db', job, row);
      && (forall k :: k in view.byExternal ==> k in view'.byExternal && view'.byExternal[k] == view.byExternal[k])
      && RowsGrow(view.wagers, view'.wagers) && SparesWallet(view, view', row.d.req.walletId)
  {
    hide RowsGrow;
    hide SparesWallet;
    ViewRowsGrow(db, db', job, row);
    ViewSpared(db, db', job, row);
    ViewIndexGrows(db, db', job, row);
  }

  lemma StillRead(db: Db, db': Db, d: WagerData)
    requires Grows(db, db') && WasRead(db, d)
    ensures WasRead(db', d)
  {
    hide ValidWager;
    assert RowGrows(db.wagers[d.req.id], db'.wagers[d.req.id]);
  }

  lemma SparedReplay(db: Db, db': Db, tx: Tx, d: WagerData, locked: Option<Id>)
    requires Grows(db, db') && Replays(db, tx, d, locked)
    requires locked.Some? ==> SparesWallet(db, db', locked.value)
    ensures Replays(db', tx, d, locked) && (locked.Some? ==> db'.wallets[locked.value] == db.wallets[locked.value])
  {
    hide RowsGrow;
    hide Repeats;
    hide ValidWager;
    StillRead(db, db', d);
    assert d.req.id in db'.wagers && db'.wagers[d.req.id].d.req == d.req;
  }

  /** An answer stays right: its wager's request stays, and a terminal wager stays whole. */
  lemma SparedAnswer(db: Db, db': Db, job: Job, reply: Reply)
    requires Grows(db, db') && AnswerFits(db, job, reply)
    ensures AnswerFits(db', job, reply)
  {
    hide PayloadHashOf;
    assert RowGrows(db.wagers[reply.transactionId], db'.wagers[reply.transactionId]);
  }

  lemma SparedAtWork(db: Db, db': Db, tx: Tx)
    requires Shape(db) && Shape(db') && Grows(db, db') && Spares(db, db', tx) && tx.AtWork() && PhaseFits(db, tx)
    ensures WorkFits(db', tx.job, tx.phase.work)
    ensures !tx.phase.Working? ==> ReferenceSeen(db', tx.job, tx.phase.work, tx.phase.reference)
  {
    hide WorkFits;
    hide ReferenceSeen;
    hide Grows;
    hide Spares;
    hide Placed;
    hide KeyIndex;
    hide ExternalIndex;
    hide InboxClosed;
    SparedWork(db, db', tx, tx.phase.work);
    if !tx.phase.Working? { SparedReference(db, db', tx, tx.phase.work, tx.phase.reference); }
  }

  /** A reference read in one's own wallet is a stored row of it. */
  lemma SeenIsStored(db: Db, job: Job, k: Work, reference: Option<WagerData>)
    requires Shape(db) && WorkFits(db, job, k) && ReferenceSeen(db, job, k, reference) && SameWallet(k, reference)
    ensures var id := reference.value.req.id;
      (job.Submit? && id == k.row.d.req.id) || (id in db.wagers && db.wagers[id].d == reference.value)
  {
    RelockReadsSame(db, job, k, reference);
  }

  lemma SparedJudgement(db: Db, db': Db, tx: Tx)
    requires Inv(db) && Inv(db') && Grows(db, db') && Spares(db, db', tx) && tx.phase.Judged? && PhaseFits(db, tx)
    requires WorkFits(db', tx.job, tx.phase.work)
    ensures SameWallet(tx.phase.work, tx.phase.reference) ==>
      tx.phase.reversed == Reversed(View(db', tx.job, tx.phase.work.row).wagers, tx.phase.reference.value.req.id)
  {
    hide AllGood;
    hide NewWager;
    hide Claimed;
    hide PayloadHashOf;
    hide ReferenceSeen;
    hide Grows;
    hide Placed;
    hide KeyIndex;
    hide ExternalIndex;
    hide InboxClosed;
    var k, reference := tx.phase.work, tx.phase.reference;
    if SameWallet(k, reference) {
      SeenIsStored(db, tx.job, k, reference);
      var id := reference.value.req.id;
      if id in db.wagers {
        SameReversed(db, db', tx.job, k.row, id);
      } else {
        OwnRowNotReversed(db, tx.job, k.row);
        OwnRowNotReversed(db', tx.job, k.row);
      }
    }
  }

  /** Nothing stored reverses a row that is only being inserted. */
  lemma OwnRowNotReversed(db: Db, job: Job, row: WagerRow)
    requires Inv(db) && job.Submit? && row.d.req.id !in db.wagers && row.d.status == PENDING
    ensures !Reversed(View(db, job, row).wagers, row.d.req.id)
  {
    var view := View(db, job, row);
    forall r | r in view.wagers ensures !Reverses(view.wagers[r].d, row.d.req.id) {
      if r in db.wagers && Reverses(db.wagers[r].d, row.d.req.id) {
        ReversalIsStored(db, r);
      }
    }
  }

  lemma ReversalIsStored(db: Db, r: Id)
    requires Inv(db) && r in db.wagers && Reverses(db.wagers[r].d, db.wagers[r].d.referenceId)
    ensures db.wagers[r].d.referenceId in db.wagers &&
      db.wagers[db.wagers[r].d.referenceId].d.req.walletId == db.wagers[r].d.req.walletId
  {
    hide AllGood;
    hide Sound;
    hide KeyIndex;
    hide ExternalIndex;
    hide InboxClosed;
    var wid := db.wagers[r].d.req.walletId;
    GoodAccount(db, wid);
    var a := AccountOf(db, wid);
    assert r in a.wagers && a.wagers[r].d == db.wagers[r].d;
    ReversalHasTarget(a, r);
  }

  lemma ReversalHasTarget(a: Account, r: Id)
    requires Sound(a) && r in a.wagers && Reverses(a.wagers[r].d, a.wagers[r].d.referenceId)
    ensures a.wagers[r].d.referenceId in a.wagers
  {
    hide Chain;
    hide Current;
    hide Accounts.Frozen;
    hide Single;
    hide Backed;
    hide Posted;
    assert RowFits(a.wallet, r, a.wagers[r]);
    assert ReferenceFits(a, a.wagers[r].d);
  }

  lemma SparedPhase(db: Db, db': Db, tx: Tx)
    requires Inv(db) && Inv(db') && Grows(db, db') && Spares(db, db', tx) && PhaseFits(db, tx)
    ensures PhaseFits(db', tx)
  {
    if tx.AtWork() {
      SparedWorking(db, db', tx);
    } else {
      SparedIdle(db, db', tx);
    }
  }

  lemma SparedWorking(db: Db, db': Db, tx: Tx)
    requires Inv(db) && Inv(db') && Grows(db, db') && Spares(db, db', tx) && PhaseFits(db, tx) && tx.AtWork()
    ensures PhaseFits(db', tx)
  {
    hide AllGood;
    hide WorkFits;
    hide ReferenceSeen;
    hide Reversed;
    hide Placed;
    hide KeyIndex;
    hide ExternalIndex;
    hide InboxClosed;
    hide RowsGrow;
    SparedAtWork(db, db', tx);
    if tx.phase.Judged? { SparedJudgement(db, db', tx); }
  }

  lemma SparedIdle(db: Db, db': Db, tx: Tx)
    requires Grows(db, db') && Spares(db, db', tx) && PhaseFits(db, tx) && !tx.AtWork()
    ensures PhaseFits(db', tx)
  {
    hide Grows;
    hide Spares;
    hide PhaseFits;
    if tx.phase.Replaying? || tx.phase.Replayed? || tx.phase.Closing? {
      SparedReplaying(db, db', tx);
    } else {
      SparedOther(db, db', tx);
    }
  }

  lemma SparedReplaying(db: Db, db': Db, tx: Tx)
    requires Grows(db, db') && Spares(db, db', tx) && PhaseFits(db, tx)
    requires tx.phase.Replaying? || tx.phase.Replayed? || tx.phase.Closing?
    ensures PhaseFits(db', tx)
  {
    hide Grows;
    hide Replays;
    hide SparesWallet;
    hide SparesIdentity;
    hide RowLocked;
    assert WalletHeld(tx).Some? ==> SparesWallet(db, db', WalletHeld(tx).value);
    SparedReplay(db, db', tx, tx.phase.d, tx.phase.locked);
  }

  lemma SparedOther(db: Db, db': Db, tx: Tx)
    requires Grows(db, db') && Spares(db, db', tx) && PhaseFits(db, tx) && !tx.AtWork()
    requires !tx.phase.Replaying? && !tx.phase.Replayed? && !tx.phase.Closing?
    ensures PhaseFits(db', tx)
  {
    match tx.phase
    case InboxHit(id) => StillNamed(db, db', tx.job, id);
    case Recalled(d) =>
      hide Grows;
      hide Spares;
      hide WasRead;
      hide MessageNames;
      StillRead(db, db', d);
      StillNamed(db, db', tx.job, d.req.id);
    case Answered(reply) =>
      hide Grows;
      hide Spares;
      hide AnswerFits;
      SparedAnswer(db, db', tx.job, reply);
    case _ =>
      hide RowsGrow;
  }

  lemma StillNamed(db: Db, db': Db, job: Job, id: Id)
    requires Grows(db, db') && MessageNames(db, job, id)
    ensures MessageNames(db', job, id)
  {
    hide RowsGrow;
  }

  lemma SparedFits(db: Db, db': Db, tx: Tx)
    requires Inv(db) && Inv(db') && Grows(db, db') && Spares(db, db', tx) && TxFits(db, tx)
    ensures TxFits(db', tx)
  {
    hide Inv;
    hide PhaseFits;
    hide NormalizeCommand;
    hide ValidMessage;
    hide Grows;
    SparedPhase(db, db', tx);
  }
}
