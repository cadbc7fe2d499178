/**
 * The column checks, foreign keys and unique constraints of the tables (migrations/000001_domain_schema.sql,
 * 000002_messaging_schema.sql) hold of every committed row, so they never refuse a commit of the engine.
 */
module Columns {
  import opened Prelude
  import opened Wallet
  import opened Wager
  import opened Ledger
  import opened Settlement
  import opened Tables
  import opened Accounts
  import opened Reachable
  import opened Runs
  import opened Growth
  import Retries

  // ---------- wager_transaction ----------

  predicate WagerAllowed(db: Db, id: Id)
    requires id in db.wagers
  {
    var row := db.wagers[id];
    var d := row.d;
    && StateAllowed(d) && OriginAllowed(d)
    && (d.status == PENDING_REFERENCE ==> d.req.refExternal != "" && row.nextAttemptAt.Some?)
    && d.req.walletId in db.wallets && db.wallets[d.req.walletId].playerId == d.req.playerId
    && (d.referenceId != NO_ID ==> d.referenceId in db.wagers) && d.referenceId != id
  }

  predicate StateAllowed(d: WagerData) {
    && d.req.money.minor >= 0 && d.req.money.Valid()
    && (d.status == PROCESSED ==> if d.req.kind == LOSS then d.req.money.minor == 0 else d.req.money.minor > 0)
    && (d.status.Terminal() <==> d.completedAt.Some?)
    && (d.status.Terminal() ==> d.resultBalance.minor >= 0 && d.resultVersion >= 1)
    && (d.status == REJECTED || d.status == FAILED <==> d.failureCode != NoCode)
  }

  predicate OriginAllowed(d: WagerData) {
    if d.req.kind == OPENING then
      && d.req.providerId == "" && d.req.externalId == "" && d.req.idempotencyKey == "" && d.req.payloadHash == NoHash
      && d.req.roundId == "" && d.req.gameId == "" && d.req.refExternal == "" && d.referenceId == NO_ID
    else
      && d.req.providerId != "" && d.req.externalId != "" && d.req.idempotencyKey != "" && d.req.payloadHash != NoHash
      && d.req.roundId != "" && d.req.gameId != ""
  }

  lemma StateFits(a: Account, id: Id)
    requires Rows(a) && References(a) && id in a.wagers
    ensures var d := a.wagers[id].d;
      && StateAllowed(d) && OriginAllowed(d) && (d.status == PENDING_REFERENCE ==> d.req.refExternal != "")
      && (d.referenceId != NO_ID ==> d.referenceId in a.wagers) && d.referenceId != id
      && d.req.playerId == a.wallet.playerId
  {
    var d := a.wagers[id].d;
    assert RowFits(a.wallet, id, a.wagers[id]);
    if d.status == PROCESSED && d.req.refExternal != "" {
      assert ReferenceFits(a, d);
    }
  }

  lemma WagersNeverRefused(ops: seq<Op>, id: Id)
    requires id in Run(ops).wagers
    ensures WagerAllowed(Run(ops), id)
  {
    hide Run;
    hide StateAllowed;
    hide OriginAllowed;
    hide Rows;
    hide References;
    var a := AccountOf(Run(ops), Run(ops).wagers[id].d.req.walletId);
    GoodAccount(Run(ops), a.wallet.id);
    StateFits(a, id);
    Retries.RunTraced(ops);
    assert Retries.RowTraced(Run(ops).wagers[id]);
  }

  // ---------- wallet and wallet_ledger_entry ----------

  predicate WalletAllowed(w: WalletData) {
    w.playerId != NO_ID && w.balance.Valid() && w.balance.minor >= 0 && w.version >= 1
  }

  lemma WalletsNeverRefused(ops: seq<Op>, wid: Id)
    requires wid in Run(ops).wallets
    ensures WalletAllowed(Run(ops).wallets[wid])
  {
    hide Run;
    GoodAccount(Run(ops), wid);
  }

  /** An entry adds up, in the currency of its wallet, and belongs to a wager of that wallet and currency. */
  predicate EntryAllowed(db: Db, wid: Id, e: LedgerData)
    requires wid in db.wallets
  {
    && e.direction != NONE && e.money.minor > 0 && e.balanceBefore.minor >= 0 && e.balanceAfter.minor >= 0
    && e.balanceAfter.minor == e.balanceBefore.minor + Signed(e.direction, e.money.minor)
    && e.walletId == wid && e.money.currency == db.wallets[wid].balance.currency
    && e.transactionId in db.wagers
    && var q := db.wagers[e.transactionId].d.req;
    q.walletId == wid && q.money.currency == e.money.currency
  }

  lemma EntriesNeverRefused(ops: seq<Op>, wid: Id, i: nat)
    requires wid in Run(ops).wallets && i < |Run(ops).ledger[wid]|
    ensures EntryAllowed(Run(ops), wid, Run(ops).ledger[wid][i])
  {
    hide Run;
    var a := AccountOf(Run(ops), wid);
    GoodAccount(Run(ops), wid);
    assert Backs(a, i);
    assert RowFits(a.wallet, a.ledger[i].transactionId, a.wagers[a.ledger[i].transactionId]);
  }

  // ---------- what needs a run of its own: owners and messages ----------

  /** wallet_player_currency_key. */
  ghost predicate OwnersDiffer(wallets: map<Id, WalletData>) {
    forall x, y :: x in wallets && y in wallets && SameOwner(wallets[x], wallets[y]) ==> x == y
  }

  ghost predicate MessagesNamed(inbox: map<(string, string), InboxRow>) {
    forall k :: k in inbox ==> k.0 != "" && k.1 != ""
  }

  /** Wallets keep their player and currency, and a message that is new has a name. */
  ghost predicate Continues(db: Db, db': Db) {
    && db'.wallets.Keys == db.wallets.Keys
    && (forall w :: w in db.wallets ==> SameOwner(db.wallets[w], db'.wallets[w]))
    && (forall k :: k in db'.inbox ==> k in db.inbox || (k.0 != "" && k.1 != ""))
  }

  predicate SameOwner(w: WalletData, w': WalletData) {
    w'.playerId == w.playerId && w'.balance.currency == w.balance.currency
  }

  lemma ContinuesKeeps(db: Db, db': Db)
    requires Continues(db, db') && OwnersDiffer(db.wallets) && MessagesNamed(db.inbox)
    ensures OwnersDiffer(db'.wallets) && MessagesNamed(db'.inbox)
  {
    forall x, y | x in db'.wallets && y in db'.wallets && SameOwner(db'.wallets[x], db'.wallets[y]) ensures x == y {
      assert SameOwner(db.wallets[x], db'.wallets[x]) && SameOwner(db.wallets[y], db'.wallets[y]);
    }
  }

  lemma PostContinues(db: Db, base: Db, row: WagerRow, out: Outcome)
    requires base.wallets == db.wallets && base.inbox == db.inbox
    requires out.wallet.id in base.ledger && out.wallet.id in base.outbox
    requires out.wallet.id in db.wallets && SameOwner(db.wallets[out.wallet.id], out.wallet)
    ensures Continues(db, Post(base, row, out))
  {
  }

  lemma CompletionContinues(db: Db, db': Db, inbox: Option<InboxMessage>, id: Id, at: Time)
    requires Continues(db, db') && ReserveInbox(db, inbox) == Reserved
    ensures Continues(db, CompleteInbox(db', inbox, id, at))
  {
  }

  lemma NothingContinues(db: Db)
    ensures Continues(db, db)
  {
  }

  lemma ProcessContinues(db: Db, call: Call)
    requires Shape(db) && ProcessWager(db, call).Ok?
    ensures Continues(db, ProcessWager(db, call).value.0)
  {
    hide FindIdentity;
    hide ProcessNew;
    hide CompleteInbox;
    hide Continues;
    NothingContinues(db);
    var c := NormalizeCommand(call.cmd).value;
    if ReserveInbox(db, call.inbox) == Reserved {
      match FindIdentity(db, c)
      case Found(d) => CompletionContinues(db, db, call.inbox, d.req.id, call.stamps.dbNow);
      case Absent => NewContinues(db, call, c);
    }
  }

  lemma NewContinues(db: Db, call: Call, c: Command)
    requires Shape(db) && c.kind.Some? && FindIdentity(db, c) == Absent && ProcessNew(db, call, c).Ok?
    requires ReserveInbox(db, call.inbox) == Reserved
    ensures Continues(db, ProcessNew(db, call, c).value.0)
  {
    hide Finish;
    hide Continues;
    hide FindIdentity;
    hide ReserveInbox;
    hide CompleteInbox;
    hide Placed;
    hide KeyIndex;
    hide InboxClosed;
    var row := RowOf(call, c);
    NewIsInsertable(db, call, c);
    InsertShape(db, row);
    NewIsFinished(db, call, c);
    var inserted := Insert(db, row);
    var reference := ReadReference(inserted, row.d.req, call.seesForeign);
    var reversed := ReadReversed(inserted.wagers, reference);
    var row', out := FinishIs(db, call, db.wallets[c.walletId], row, reference, reversed);
    PostContinues(db, inserted, row', out);
    CompletionContinues(db, Post(inserted, row', out), call.inbox, row.d.req.id, call.stamps.dbNow);
  }

  lemma RetryContinues(db: Db, r: Retry)
    requires Shape(db) && RetryReference(db, r).Ok?
    ensures Continues(db, RetryReference(db, r).value.0)
  {
    hide RetryOutcome;
    hide Continues;
    hide KeyIndex;
    hide InboxClosed;
    hide Post;
    var row := Attempted(db.wagers[r.claim.transactionId]);
    var reference := ReadReference(db, row.d.req, r.seesForeign);
    var w := db.wallets[r.claim.walletId];
    RetryRow(row, w, r, reference, ReadReversed(db.wagers, reference));
    var (row', out) := RetryOutcome(row, w, r, reference, ReadReversed(db.wagers, reference)).value;
    PostContinues(db, db, row', out);
  }

  lemma CreateKeepsOwners(db: Db, o: Opening)
    requires OwnersDiffer(db.wallets) && CreateWallet(db, o).Ok?
    ensures OwnersDiffer(CreateWallet(db, o).value.wallets) && CreateWallet(db, o).value.inbox == db.inbox
  {
    var row, entries, events := CreateIs(db, o);
    IsAdmitted(db, o);
    hide CreateWallet;
  }

  lemma IsAdmitted(db: Db, o: Opening)
    requires CreateWallet(db, o).Ok?
    ensures forall id :: id in db.wallets ==> !SameOwner(db.wallets[id], OpeningWallet(o))
  {
    hide OpeningRows;
  }

  lemma NoOwners()
    ensures OwnersDiffer(EMPTY.wallets) && MessagesNamed(EMPTY.inbox)
  {
  }

  lemma {:induction false} OwnersAndMessages(ops: seq<Op>)
    ensures OwnersDiffer(Run(ops).wallets) && MessagesNamed(Run(ops).inbox)
  {
    hide AllGood;
    hide Step;
    hide OwnersDiffer;
    hide MessagesNamed;
    hide Placed;
    hide KeyIndex;
    hide ExternalIndex;
    hide InboxClosed;
    if ops == [] {
      NoOwners();
    } else {
      var front, op := ops[..|ops| - 1], ops[|ops| - 1];
      OwnersAndMessages(front);
      RunUnfolds(ops);
      StepOwners(Run(front), op);
    }
  }

  lemma StepOwners(db: Db, op: Op)
    requires Shape(db) && OwnersDiffer(db.wallets) && MessagesNamed(db.inbox)
    ensures OwnersDiffer(Step(db, op).wallets) && MessagesNamed(Step(db, op).inbox)
  {
    hide ProcessWager;
    hide RetryReference;
    hide CreateWallet;
    hide OwnersDiffer;
    hide MessagesNamed;
    hide Continues;
    hide Claimable;
    hide Placed;
    hide KeyIndex;
    hide ExternalIndex;
    hide InboxClosed;
    match op
    case OpCreate(o) => if CreateWallet(db, o).Ok? { CreateKeepsOwners(db, o); }
    case OpProcess(call) =>
      if ProcessWager(db, call).Ok? {
        ProcessContinues(db, call);
        ContinuesKeeps(db, ProcessWager(db, call).value.0);
      }
    case OpRetry(r) =>
      if RetryReference(db, r).Ok? {
        RetryContinues(db, r);
        ContinuesKeeps(db, RetryReference(db, r).value.0);
      }
    case _ =>
  }

  lemma OneWalletPerPlayer(ops: seq<Op>, x: Id, y: Id)
    requires x in Run(ops).wallets && y in Run(ops).wallets && SameOwner(Run(ops).wallets[x], Run(ops).wallets[y])
    ensures x == y
  {
    hide Run;
    OwnersAndMessages(ops);
  }

  /** A committed message has a name, is complete, and refers to a stored wager. */
  lemma MessagesNeverRefused(ops: seq<Op>, k: (string, string))
    requires k in Run(ops).inbox
    ensures k.0 != "" && k.1 != "" && Run(ops).inbox[k].completedAt.Some?
    ensures Run(ops).inbox[k].wagerId.Some? && Run(ops).inbox[k].wagerId.value in Run(ops).wagers
  {
    hide Run;
    hide AllGood;
    hide Placed;
    hide KeyIndex;
    hide ExternalIndex;
    OwnersAndMessages(ops);
  }
}
