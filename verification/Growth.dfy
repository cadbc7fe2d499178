/**
 * What no transaction ever takes back: rows, identities, completed messages and terminal results stay
 * (migrations/000003_database_guards.sql, internal/adapters/postgres/store.go), and waiting ends.
 */
module Growth {
  import opened Prelude
  import opened Wallet
  import opened Wager
  import opened Ledger
  import opened Settlement
  import opened Tables
  import opened Reachable
  import opened Runs

  /** Rows keep their request, terminal rows keep everything, identities and messages stay taken by the same row. */
  ghost predicate Grows(db: Db, db': Db) {
    && RowsGrow(db.wagers, db'.wagers)
    && db.wallets.Keys <= db'.wallets.Keys
    && (forall k :: k in db.byKey ==> k in db'.byKey && db'.byKey[k] == db.byKey[k])
    && (forall k :: k in db.byExternal ==> k in db'.byExternal && db'.byExternal[k] == db.byExternal[k])
    && (forall k :: k in db.inbox ==> k in db'.inbox && db'.inbox[k] == db.inbox[k])
  }

  ghost predicate RowsGrow(before: map<Id, WagerRow>, after: map<Id, WagerRow>) {
    forall id {:trigger after[id]} {:trigger before[id]} {:trigger id in after} :: id in before ==>
      id in after && RowGrows(before[id], after[id])
  }

  predicate RowGrows(before: WagerRow, after: WagerRow) {
    && after.d.req == before.d.req && after.attempts >= before.attempts
    && (before.d.status.Terminal() ==> after.d == before.d && after.attempts == before.attempts)
  }

  lemma GrowsOn(x: Db, y: Db, z: Db)
    requires Grows(x, y) && Grows(y, z)
    ensures Grows(x, z)
  {
    forall id | id in x.wagers ensures id in z.wagers && RowGrows(x.wagers[id], z.wagers[id]) {
      assert RowGrows(x.wagers[id], y.wagers[id]);
    }
  }

  // ---------- one transaction ----------

  /** A message is completed only when it was free. */
  lemma CompletionGrows(db: Db, inbox: Option<InboxMessage>, id: Id, at: Time)
    requires ReserveInbox(db, inbox) == Reserved
    ensures Grows(db, CompleteInbox(db, inbox, id, at))
  {
    hide RowsGrow;
    RowsStay(db.wagers);
  }

  lemma RowsStay(wagers: map<Id, WagerRow>)
    ensures RowsGrow(wagers, wagers)
  {
  }

  /** The row of a new command is written back on top of its own insert. */
  lemma PostedGrows(db: Db, row: WagerRow, row': WagerRow, out: Outcome, inbox: Option<InboxMessage>, at: Time)
    requires Insertable(db, row) && row'.d.req == row.d.req && ReserveInbox(db, inbox) == Reserved
    requires out.wallet.id in db.ledger && out.wallet.id in db.outbox
    ensures Grows(db, CompleteInbox(Post(Insert(db, row), row', out), inbox, row.d.req.id, at))
  {
    hide ValidMessage;
  }

  lemma ProcessGrows(db: Db, call: Call)
    requires Shape(db) && ProcessWager(db, call).Ok?
    ensures Grows(db, ProcessWager(db, call).value.0)
  {
    hide FindIdentity;
    hide ProcessNew;
    hide CompleteInbox;
    var c := NormalizeCommand(call.cmd).value;
    if ReserveInbox(db, call.inbox) == Reserved {
      match FindIdentity(db, c)
      case Found(d) =>
        CompletionGrows(db, call.inbox, d.req.id, call.stamps.dbNow);
      case Absent =>
        NewGrows(db, call, c);
    }
  }

  lemma NewGrows(db: Db, call: Call, c: Command)
    requires Shape(db) && c.kind.Some? && FindIdentity(db, c) == Absent && ProcessNew(db, call, c).Ok?
    requires ReserveInbox(db, call.inbox) == Reserved
    ensures Grows(db, ProcessNew(db, call, c).value.0)
  {
    hide Settle;
    hide Grows;
    hide Persist;
    hide Placed;
    hide KeyIndex;
    hide ExternalIndex;
    hide InboxClosed;
    hide FindIdentity;
    hide ReserveInbox;
    var row := RowOf(call, c);
    NewIsInsertable(db, call, c);
    InsertShape(db, row);
    NewIsFinished(db, call, c);
    FinishGrows(db, call, row, c);
  }

  /** A finished command: its row inserted, written back as settled, its message completed. */
  lemma FinishIs(db: Db, call: Call, w: WalletData, row: WagerRow, reference: Option<WagerData>, reversed: bool)
    returns (row': WagerRow, out: Outcome)
    requires w.id in db.ledger && w.id in db.outbox && Finish(db, call, w, row, reference, reversed).Ok?
    ensures row'.d.req == row.d.req && row'.attempts == row.attempts && row'.trace == row.trace && out.wallet.id == w.id
    ensures row'.d == out.wager && row' == Persist(row, out.wager, call.stamps.dbNow)
    ensures out.wallet.playerId == w.playerId && out.wallet.balance.currency == w.balance.currency
    ensures Finish(db, call, w, row, reference, reversed).value.1 == ResultOf(row'.d, out.wallet, false)
    ensures Finish(db, call, w, row, reference, reversed).value.0 ==
      CompleteInbox(Post(Insert(db, row), row', out), call.inbox, row.d.req.id, call.stamps.dbNow)
  {
    hide Settle;
    hide Post;
    hide CompleteInbox;
    SettleMeans(w, row.d, row.trace, reference, reversed, false, call.stamps);
    out := Settle(w, row.d, row.trace, reference, reversed, false, call.stamps).value;
    row' := Persist(row, out.wager, call.stamps.dbNow);
  }

  lemma FinishGrows(db: Db, call: Call, row: WagerRow, c: Command)
    requires Shape(db) && Insertable(db, row) && Shape(Insert(db, row)) && ReserveInbox(db, call.inbox) == Reserved
    requires row.d.req.walletId in db.wallets
    requires var inserted := Insert(db, row); var reference := ReadReference(inserted, row.d.req, call.seesForeign);
      Finish(db, call, db.wallets[row.d.req.walletId], row, reference, ReadReversed(inserted.wagers, reference)).Ok?
    ensures var inserted := Insert(db, row); var reference := ReadReference(inserted, row.d.req, call.seesForeign);
      Grows(db, Finish(db, call, db.wallets[row.d.req.walletId], row, reference,
        ReadReversed(inserted.wagers, reference)).value.0)
  {
    hide Finish;
    hide Grows;
    hide Insertable;
    hide ReserveInbox;
    hide CompleteInbox;
    var inserted := Insert(db, row);
    var reference := ReadReference(inserted, row.d.req, call.seesForeign);
    var row', out :=
      FinishIs(db, call, db.wallets[row.d.req.walletId], row, reference, ReadReversed(inserted.wagers, reference));
    PostedGrows(db, row, row', out, call.inbox, call.stamps.dbNow);
  }

  /** A retry leaves the row under its request, with one more attempt. */
  lemma RetryRow(row: WagerRow, w: WalletData, r: Retry, reference: Option<WagerData>, reversed: bool)
    requires RetryOutcome(row, w, r, reference, reversed).Ok?
    ensures var (row', out) := RetryOutcome(row, w, r, reference, reversed).value;
      && row'.d.req == row.d.req && row'.attempts == row.attempts && row'.d == out.wager
      && out.wallet.playerId == w.playerId && out.wallet.balance.currency == w.balance.currency
  {
    var exhausted := Exhausted(row, r);
    if Settle(w, row.d, row.trace, reference, reversed, exhausted, r.stamps).Ok? {
      SettleMeans(w, row.d, row.trace, reference, reversed, exhausted, r.stamps);
    }
  }

  lemma RewriteGrows(db: Db, row: WagerRow, out: Outcome)
    requires row.d.req.id in db.wagers && RowGrows(db.wagers[row.d.req.id], row)
    requires out.wallet.id in db.ledger && out.wallet.id in db.outbox
    ensures Grows(db, Post(db, row, out))
  {
    forall id | id in db.wagers ensures RowGrows(db.wagers[id], Post(db, row, out).wagers[id]) {}
  }

  lemma RetryGrows(db: Db, r: Retry)
    requires Shape(db) && RetryReference(db, r).Ok?
    ensures Grows(db, RetryReference(db, r).value.0)
  {
    hide RetryOutcome;
    hide Grows;
    hide KeyIndex;
    hide InboxClosed;
    hide Post;
    var row := Attempted(db.wagers[r.claim.transactionId]);
    var reference := ReadReference(db, row.d.req, r.seesForeign);
    var w := db.wallets[r.claim.walletId];
    RetryRow(row, w, r, reference, ReadReversed(db.wagers, reference));
    var (row', out) := RetryOutcome(row, w, r, reference, ReadReversed(db.wagers, reference)).value;
    RewriteGrows(db, row', out);
  }

  /** The OPENING row of a wallet. */
  predicate OpensAs(o: Opening, row: WagerRow) {
    && row.d.req == OpeningRequest(o) && row.d.status == PROCESSED && row.attempts == 0 && row.claim == None
    && !Blank(row.trace.correlation)
  }

  /** The rows that CreateWallet adds. */
  lemma CreateIs(db: Db, o: Opening) returns (row: Option<WagerRow>, entries: seq<LedgerData>, events: seq<Event>)
    requires CreateWallet(db, o).Ok?
    ensures o.walletId !in db.wallets && (row.Some? ==> o.wagerId !in db.wagers)
    ensures row.Some? ==> OpensAs(o, row.value)
    ensures var created := AddWallet(db, OpeningWallet(o), entries, events);
      CreateWallet(db, o).value == if row == None then created
        else created.(wagers := db.wagers[o.wagerId := row.value])
  {
    if o.initial.minor == 0 {
      row, entries, events := None, [], [];
    } else {
      OpeningIs(o);
      hide OpeningRows;
      var (r, e, es) := OpeningRows(o).value;
      row, entries, events := Some(r), [e], es;
    }
  }

  lemma OpeningIs(o: Opening)
    requires OpeningRows(o).Ok?
    ensures OpensAs(o, OpeningRows(o).value.0)
  {
    hide NewLedgerEntry;
    hide ValidWager;
  }

  lemma CreateGrows(db: Db, o: Opening)
    requires CreateWallet(db, o).Ok?
    ensures Grows(db, CreateWallet(db, o).value)
  {
    hide CreateWallet;
    var row, entries, events := CreateIs(db, o);
  }

  lemma ClaimGrows(db: Db, id: Id, claim: Option<Claim>)
    requires id in db.wagers
    ensures Grows(db, db.(wagers := db.wagers[id := db.wagers[id].(claim := claim)]))
  {
  }

  lemma StepGrows(db: Db, op: Op)
    requires Shape(db)
    ensures Grows(db, Step(db, op))
  {
    hide ProcessWager;
    hide RetryReference;
    hide CreateWallet;
    hide Grows;
    hide Claimable;
    hide Placed;
    hide KeyIndex;
    hide ExternalIndex;
    hide InboxClosed;
    NothingGrows(db);
    match op
    case OpCreate(o) => if CreateWallet(db, o).Ok? { CreateGrows(db, o); }
    case OpProcess(call) => if ProcessWager(db, call).Ok? { ProcessGrows(db, call); }
    case OpRetry(r) => if RetryReference(db, r).Ok? { RetryGrows(db, r); }
    case OpClaim(id, claim, _) => if id in db.wagers { ClaimGrows(db, id, Some(claim)); }
    case OpRelease(id, _) => if id in db.wagers { ClaimGrows(db, id, None); }
  }

  lemma NothingGrows(db: Db)
    ensures Grows(db, db)
  {
  }

  /** Whatever a run has committed, every continuation of the run keeps. */
  lemma {:induction false} RunGrows(ops: seq<Op>, more: seq<Op>)
    ensures Grows(Run(ops), Run(ops + more))
    decreases |more|
  {
    hide AllGood;
    hide Step;
    hide Grows;
    hide Placed;
    hide KeyIndex;
    hide ExternalIndex;
    hide InboxClosed;
    if more == [] {
      assert ops + more == ops;
      NothingGrows(Run(ops));
    } else {
      var front := ops + more[..|more| - 1];
      assert (ops + more)[..|ops + more| - 1] == front;
      RunGrows(ops, more[..|more| - 1]);
      StepGrows(Run(front), more[|more| - 1]);
      GrowsOn(Run(ops), Run(front), Run(ops + more));
    }
  }
}
