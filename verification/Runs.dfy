/** Runs of transactions, one at a time: the invariants hold in every state reached from the empty tables. */
module Runs {
  import opened Prelude
  import opened Money
  import opened Wallet
  import opened Wager
  import opened Ledger
  import opened Settlement
  import opened Tables
  import opened Accounts
  import opened ClosedForm
  import opened Emission
  import opened Reachable

  // ---------- shape ----------

  lemma InsertShape(db: Db, row: WagerRow)
    requires Shape(db) && row.d.req.walletId in db.wallets && row.d.req.id !in db.wagers && row.d.req.kind != OPENING
    requires KeyOf(row.d.req) !in db.byKey && ExternalOf(row.d.req) !in db.byExternal
    ensures Shape(Insert(db, row))
  {
    var db' := Insert(db, row);
    InsertKeyIndex(db.wagers, db.byKey, row);
    InsertExternalIndex(db.wagers, db.byExternal, row);
    assert Placed(db'.wagers, db'.wallets);
    assert InboxClosed(db'.wagers, db'.inbox);
  }

  lemma InsertKeyIndex(wagers: map<Id, WagerRow>, index: map<(string, string), Id>, row: WagerRow)
    requires KeyIndex(wagers, index) && row.d.req.id !in wagers && row.d.req.kind != OPENING &&
      KeyOf(row.d.req) !in index
    ensures KeyIndex(wagers[row.d.req.id := row], index[KeyOf(row.d.req) := row.d.req.id])
  {
  }

  lemma InsertExternalIndex(wagers: map<Id, WagerRow>, index: map<(string, string), Id>, row: WagerRow)
    requires ExternalIndex(wagers, index) && row.d.req.id !in wagers && row.d.req.kind != OPENING &&
      ExternalOf(row.d.req) !in index
    ensures ExternalIndex(wagers[row.d.req.id := row], index[ExternalOf(row.d.req) := row.d.req.id])
  {
  }

  /** Rewriting rows without touching their requests keeps indexes and references. */
  lemma RewriteShape(db: Db, wagers: map<Id, WagerRow>)
    requires Shape(db) && wagers.Keys == db.wagers.Keys
    requires forall id :: id in wagers ==> wagers[id].d.req == db.wagers[id].d.req
    ensures Placed(wagers, db.wallets) && KeyIndex(wagers, db.byKey) && ExternalIndex(wagers, db.byExternal) &&
      InboxClosed(wagers, db.inbox)
  {
    forall id | id in wagers ensures wagers[id].d.req == db.wagers[id].d.req {}
  }

  lemma PostShape(db: Db, row: WagerRow, out: Outcome)
    requires Shape(db) && row.d.req.id in db.wagers && db.wagers[row.d.req.id].d.req == row.d.req
    requires out.wallet.id == row.d.req.walletId
    ensures Shape(Post(db, row, out))
  {
    var db' := Post(db, row, out);
    RewriteShape(db, db'.wagers);
    assert db'.wallets.Keys == db.wallets.Keys;
    assert Placed(db'.wagers, db'.wallets);
  }

  lemma InboxShape(db: Db, inbox: Option<InboxMessage>, id: Id, at: Time)
    requires Shape(db) && id in db.wagers
    ensures Shape(CompleteInbox(db, inbox, id, at))
  {
  }

  /** Tables that differ in the inbox and in claims only have the same accounts. */
  lemma SameAccounts(db: Db, db': Db)
    requires db.wallets.Keys == db.ledger.Keys == db.outbox.Keys && AllGood(db)
    requires db'.wallets == db.wallets && db'.ledger == db.ledger && db'.outbox == db.outbox
    requires db'.wagers.Keys == db.wagers.Keys
    requires forall id :: id in db.wagers ==> StandingOf(db'.wagers[id]) == StandingOf(db.wagers[id])
    ensures AllGood(db')
  {
    forall wid | wid in db'.wallets ensures wid !in Broken(db') {
      SameRows(db.wagers, db'.wagers, wid);
      assert wid !in Broken(db);
    }
  }

  lemma SameRows(before: map<Id, WagerRow>, after: map<Id, WagerRow>, wid: Id)
    requires before.Keys == after.Keys && forall id :: id in before ==> StandingOf(after[id]) == StandingOf(before[id])
    ensures RowsIn(after, wid) == RowsIn(before, wid)
  {
    forall id | id in before ensures after[id].d == before[id].d {
      assert StandingOf(after[id]) == StandingOf(before[id]);
    }
  }

  // ---------- a new command ----------

  /** The row of a command whose identity is new, ready to be inserted. */
  ghost predicate Insertable(db: Db, row: WagerRow) {
    && row.d.req.walletId in db.wallets && row.d.req.id !in db.wagers && row.d.req.kind != OPENING
    && KeyOf(row.d.req) !in db.byKey && ExternalOf(row.d.req) !in db.byExternal
    && row.d.status == PENDING && row.d.referenceId == NO_ID && row.attempts == 0
  }

  /** Reading a reference among rows that extend the wallet's own gives ReadsFit. */
  lemma ReadsAre(a: Account, wagers: map<Id, WagerRow>, d: WagerData, attempts: nat, reference: Option<WagerData>)
    requires d.req.kind != OPENING && d.req.walletId == a.wallet.id
    requires if d.req.id in a.wagers then a.wagers[d.req.id].d == d && d.status == PENDING_REFERENCE &&
      attempts == a.wagers[d.req.id].attempts + 1
             else d.status == PENDING && attempts == 0
    requires d.referenceId == NO_ID && (d.req.refExternal == "" ==> reference == None)
    requires reference.Some? ==> reference.value.req.id in wagers && wagers[reference.value.req.id].d == reference.value
    requires forall id :: id in wagers && wagers[id].d.req.walletId == a.wallet.id && id != d.req.id ==>
      id in a.wagers && a.wagers[id].d == wagers[id].d
    requires forall id :: id in a.wagers ==> id in wagers && wagers[id].d == a.wagers[id].d
    ensures ReadsFit(a, d, attempts, reference, ReadReversed(wagers, reference))
  {
    if reference.Some? && ReversedIn(a, reference.value.req.id) {
      var r :| r in a.wagers && Reverses(a.wagers[r].d, reference.value.req.id);
      assert Reverses(wagers[r].d, reference.value.req.id);
    }
  }

  lemma NewReadsFit(db: Db, row: WagerRow, seesForeign: bool)
    requires Placed(db.wagers, db.wallets) && Insertable(db, row) && row.d.req.walletId in db.ledger &&
      row.d.req.walletId in db.outbox
    requires db.wallets[row.d.req.walletId].id == row.d.req.walletId
    requires var inserted := Insert(db, row);
      Placed(inserted.wagers, inserted.wallets) && ExternalIndex(inserted.wagers, inserted.byExternal)
    ensures var inserted := Insert(db, row);
      var reference := ReadReference(inserted, row.d.req, seesForeign);
      ReadsFit(AccountOf(db, row.d.req.walletId), row.d, 0, reference, ReadReversed(inserted.wagers, reference))
  {
    var inserted := Insert(db, row);
    var reference := ReadReference(inserted, row.d.req, seesForeign);
    if reference.Some? {
      FoundReference(inserted, row.d.req);
    }
    ReadsAre(AccountOf(db, row.d.req.walletId), inserted.wagers, row.d, 0, reference);
  }

  /** A reference that is found is the stored row of its id. */
  lemma FoundReference(db: Db, q: Request)
    requires Placed(db.wagers, db.wallets) && ExternalIndex(db.wagers, db.byExternal) && LookupReference(db, q).Some?
    ensures var d := LookupReference(db, q).value; d.req.id in db.wagers && db.wagers[d.req.id].d == d
  {
  }

  /** Inserting a row, writing its permitted outcome and completing the inbox keeps the invariants. */
  lemma PostedKeeps(db: Db, row: WagerRow, row': WagerRow, out: Outcome, inbox: Option<InboxMessage>, at: Time)
    requires Inv(db) && Insertable(db, row) && row'.d.req == row.d.req && out.wallet.id == row.d.req.walletId
    requires Permitted(AccountOf(db, row.d.req.walletId), StandingOf(row'), out)
    ensures out.wallet.id in Insert(db, row).ledger && out.wallet.id in Insert(db, row).outbox
    ensures Inv(CompleteInbox(Post(Insert(db, row), row', out), inbox, row.d.req.id, at))
  {
    PostedShape(db, row, row', out);
    PostedGood(db, row, row', out);
    InboxKeeps(Post(Insert(db, row), row', out), inbox, row.d.req.id, at);
  }

  lemma PostedShape(db: Db, row: WagerRow, row': WagerRow, out: Outcome)
    requires Shape(db) && Insertable(db, row) && row'.d.req == row.d.req && out.wallet.id == row.d.req.walletId
    ensures Shape(Post(Insert(db, row), row', out))
  {
    InsertShape(db, row);
    PostShape(Insert(db, row), row', out);
  }

  lemma PostedWrites(db: Db, row: WagerRow, row': WagerRow, out: Outcome)
    requires db.wallets.Keys == db.ledger.Keys == db.outbox.Keys
    requires Insertable(db, row) && row'.d.req == row.d.req && out.wallet.id == row.d.req.walletId
    ensures Writes(db, Post(Insert(db, row), row', out), row', out.wallet, EntriesOf(out), out.events)
  {
    WriteIsPost(db, Insert(db, row), row', out);
  }

  lemma PostedGood(db: Db, row: WagerRow, row': WagerRow, out: Outcome)
    requires db.wallets.Keys == db.ledger.Keys == db.outbox.Keys && AllGood(db)
    requires Insertable(db, row) && row'.d.req == row.d.req && out.wallet.id == row.d.req.walletId
    requires Permitted(AccountOf(db, row.d.req.walletId), StandingOf(row'), out)
    ensures var db' := Post(Insert(db, row), row', out);
      db'.wallets.Keys == db'.ledger.Keys == db'.outbox.Keys && AllGood(db')
  {
    hide AllGood;
    hide Permitted;
    hide Placed;
    hide Post;
    hide Writes;
    PostedWrites(db, row, row', out);
    WriteKeepsGood(db, Post(Insert(db, row), row', out), row', out);
  }

  lemma InboxKeeps(db: Db, inbox: Option<InboxMessage>, id: Id, at: Time)
    requires Inv(db) && id in db.wagers
    ensures Inv(CompleteInbox(db, inbox, id, at))
  {
    hide Placed;
    hide KeyIndex;
    hide ExternalIndex;
    hide Good;
    InboxShape(db, inbox, id, at);
    SameAccounts(db, CompleteInbox(db, inbox, id, at));
  }

  /** The settlement of a new command is a permitted write. */
  lemma NewFits(db: Db, row: WagerRow, seesForeign: bool, st: Stamps)
    requires Inv(db) && Insertable(db, row) && Shape(Insert(db, row))
    requires var inserted := Insert(db, row); var reference := ReadReference(inserted, row.d.req, seesForeign);
      Settle(db.wallets[row.d.req.walletId], row.d, row.trace, reference, ReadReversed(inserted.wagers, reference),
        false, st).Ok?
    ensures var inserted := Insert(db, row); var reference := ReadReference(inserted, row.d.req, seesForeign);
      var out := Settle(db.wallets[row.d.req.walletId], row.d, row.trace, reference,
        ReadReversed(inserted.wagers, reference), false, st).value;
      && Permitted(AccountOf(db, row.d.req.walletId), Standing(out.wager, 0), out)
      && out.wager.req == row.d.req && out.wallet.id == row.d.req.walletId
  {
    var inserted := Insert(db, row);
    var reference := ReadReference(inserted, row.d.req, seesForeign);
    NewReadsFit(db, row, seesForeign);
    AccountSettles(db, row.d.req.walletId, row.d, 0, row.trace, reference, ReadReversed(inserted.wagers, reference),
      false, st);
  }

  lemma FinishKeeps(db: Db, call: Call, row: WagerRow)
    requires Inv(db) && Insertable(db, row) && Shape(Insert(db, row))
    requires var inserted := Insert(db, row); var reference := ReadReference(inserted, row.d.req, call.seesForeign);
      Finish(db, call, db.wallets[row.d.req.walletId], row, reference, ReadReversed(inserted.wagers, reference)).Ok?
    ensures var inserted := Insert(db, row); var reference := ReadReference(inserted, row.d.req, call.seesForeign);
      Inv(Finish(db, call, db.wallets[row.d.req.walletId], row, reference,
        ReadReversed(inserted.wagers, reference)).value.0)
  {
    hide Permitted;
    hide AllGood;
    hide Settle;
    var inserted := Insert(db, row);
    var reference := ReadReference(inserted, row.d.req, call.seesForeign);
    var out := Settle(db.wallets[row.d.req.walletId], row.d, row.trace, reference,
      ReadReversed(inserted.wagers, reference), false, call.stamps).value;
    NewFits(db, row, call.seesForeign, call.stamps);
    PostedKeeps(db, row, Persist(row, out.wager, call.stamps.dbNow), out, call.inbox, call.stamps.dbNow);
  }

  lemma WriteIsPost(db: Db, inserted: Db, row': WagerRow, out: Outcome)
    requires db.wallets.Keys == db.ledger.Keys == db.outbox.Keys
    requires row'.d.req.walletId in db.wallets && out.wallet.id == row'.d.req.walletId
    requires row'.d.req.id in db.wagers ==> db.wagers[row'.d.req.id].d.req == row'.d.req
    requires inserted.wallets == db.wallets && inserted.ledger == db.ledger && inserted.outbox == db.outbox
    requires inserted.wagers[row'.d.req.id := row'] == db.wagers[row'.d.req.id := row']
    ensures Writes(db, Post(inserted, row', out), row', out.wallet, EntriesOf(out), out.events)
  {
    var wid := row'.d.req.walletId;
    if out.entry == None {
      assert db.ledger[wid] + [] == db.ledger[wid];
      assert db.ledger[wid := db.ledger[wid]] == db.ledger;
    }
  }

  /** What a settlement on a wallet of good tables amounts to. */
  lemma AccountSettles(db: Db, wid: Id, d: WagerData, attempts: nat, trace: Trace, reference: Option<WagerData>,
          reversed: bool, expired: bool, st: Stamps)
    requires db.wallets.Keys == db.ledger.Keys == db.outbox.Keys && AllGood(db) && wid in db.wallets &&
      db.wallets[wid].id == wid
    requires ReadsFit(AccountOf(db, wid), d, attempts, reference, reversed)
    requires Settle(db.wallets[wid], d, trace, reference, reversed, expired, st).Ok?
    ensures var out := Settle(db.wallets[wid], d, trace, reference, reversed, expired, st).value;
      && Permitted(AccountOf(db, wid), Standing(out.wager, attempts), out)
      && out.wager.req == d.req && d.req.walletId == wid && out.wallet.id == wid
  {
    GoodAccount(db, wid);
    SettlementFits(AccountOf(db, wid), d, attempts, trace, reference, reversed, expired, st);
    SettleMeans(db.wallets[wid], d, trace, reference, reversed, expired, st);
  }

  lemma ProcessKeeps(db: Db, call: Call)
    requires Inv(db) && ProcessWager(db, call).Ok?
    ensures Inv(ProcessWager(db, call).value.0)
  {
    hide FindIdentity;
    hide ProcessNew;
    hide AllGood;
    hide Placed;
    var c := NormalizeCommand(call.cmd).value;
    if ReserveInbox(db, call.inbox) == Reserved {
      match FindIdentity(db, c)
      case Found(d) =>
        ReplayKeeps(db, call, c);
      case Absent =>
        NewKeeps(db, call, c);
    }
  }

  /** An identity that is found is a stored row. */
  lemma FoundIsStored(db: Db, c: Command)
    requires Shape(db) && c.kind.Some? && FindIdentity(db, c).Found?
    ensures var d := FindIdentity(db, c).d;
      d.req.id in db.wagers && db.wagers[d.req.id].d == d && d.req.walletId in db.wallets
  {
  }

  lemma ReplayKeeps(db: Db, call: Call, c: Command)
    requires Inv(db) && c.kind.Some? && FindIdentity(db, c).Found?
    ensures Inv(CompleteInbox(db, call.inbox, FindIdentity(db, c).d.req.id, call.stamps.dbNow))
  {
    FoundIsStored(db, c);
    InboxKeeps(db, call.inbox, FindIdentity(db, c).d.req.id, call.stamps.dbNow);
  }

  function RowOf(call: Call, c: Command): WagerRow
    requires c.kind.Some?
  {
    NewRow(Fresh(RequestOf(c, call.id, call.createdAt)), c.trace)
  }

  /** A new command that passes its checks has an insertable row, and is finished from it. */
  lemma NewIsInsertable(db: Db, call: Call, c: Command)
    requires Shape(db) && c.kind.Some? && FindIdentity(db, c) == Absent && ProcessNew(db, call, c).Ok?
    ensures Insertable(db, RowOf(call, c))
  {
    hide ValidWager;
    hide Finish;
    hide Placed;
    hide InboxClosed;
  }

  lemma NewIsFinished(db: Db, call: Call, c: Command)
    requires Shape(db) && c.kind.Some? && FindIdentity(db, c) == Absent && ProcessNew(db, call, c).Ok?
    requires Shape(Insert(db, RowOf(call, c)))
    ensures var row := RowOf(call, c); var inserted := Insert(db, row);
      var reference := ReadReference(inserted, row.d.req, call.seesForeign);
      ProcessNew(db, call, c) ==
        Finish(db, call, db.wallets[c.walletId], row, reference, ReadReversed(inserted.wagers, reference))
  {
    hide ValidRequest;
    hide Finish;
  }

  lemma NewKeeps(db: Db, call: Call, c: Command)
    requires Inv(db) && c.kind.Some? && FindIdentity(db, c) == Absent && ProcessNew(db, call, c).Ok?
    ensures Inv(ProcessNew(db, call, c).value.0)
  {
    NewIsInsertable(db, call, c);
    InsertShape(db, RowOf(call, c));
    NewIsFinished(db, call, c);
    FinishKeeps(db, call, RowOf(call, c));
  }

  // ---------- a retry ----------

  lemma RetryReadsFit(db: Db, id: Id, seesForeign: bool)
    requires Shape(db) && id in db.wagers && db.wagers[id].d.status == PENDING_REFERENCE &&
      db.wagers[id].d.req.kind != OPENING
    requires db.wagers[id].d.referenceId == NO_ID
    ensures var row := db.wagers[id];
      var reference := ReadReference(db, row.d.req, seesForeign);
      ReadsFit(AccountOf(db, row.d.req.walletId), row.d, row.attempts + 1, reference,
        ReadReversed(db.wagers, reference))
  {
    var row := db.wagers[id];
    var reference := ReadReference(db, row.d.req, seesForeign);
    if reference.Some? {
      FoundReference(db, row.d.req);
    }
    ReadsAre(AccountOf(db, row.d.req.walletId), db.wagers, row.d, row.attempts + 1, reference);
  }

  /** The terminal record of a retry that could not be applied: the wallet as it is, and one event. */
  lemma FailureFits(a: Account, d: WagerData, attempts: nat, trace: Trace, st: Stamps, at: Time)
    requires Rows(a) && d.req.id in a.wagers && a.wagers[d.req.id].d == d && d.status == PENDING_REFERENCE
    requires attempts == a.wagers[d.req.id].attempts + 1
    requires var change := ToFailed(PERMANENT_PROCESSING_FAILURE, a.wallet.balance, a.wallet.version);
      CanChange(d, change, at) && EventsOf(Changed(d, change, at), a.wallet.version, None, trace, st).Ok?
    ensures var change := ToFailed(PERMANENT_PROCESSING_FAILURE, a.wallet.balance, a.wallet.version);
      var failed := Changed(d, change, at);
      Permitted(a, Standing(failed, attempts),
        Outcome(a.wallet, failed, None, EventsOf(failed, a.wallet.version, None, trace, st).value))
  {
    hide EventsOf;
    hide ValidRequest;
    hide Blank;
    var change := ToFailed(PERMANENT_PROCESSING_FAILURE, a.wallet.balance, a.wallet.version);
    assert RowFits(a.wallet, d.req.id, a.wagers[d.req.id]);
    EventsShape(Changed(d, change, at), a.wallet.version, None, trace, st);
  }

  /** An attempt that only counted: the wager waits on, nothing is emitted. */
  lemma DeferralFits(a: Account, d: WagerData, attempts: nat)
    requires Rows(a) && d.req.id in a.wagers && a.wagers[d.req.id].d == d && d.status == PENDING_REFERENCE
    requires attempts == a.wagers[d.req.id].attempts + 1
    ensures Permitted(a, Standing(d, attempts), Outcome(a.wallet, d, None, []))
  {
    assert RowFits(a.wallet, d.req.id, a.wagers[d.req.id]);
  }

  /** Whatever a retry leaves is a permitted write of its row. */
  lemma RetryFits(a: Account, row: WagerRow, r: Retry, reference: Option<WagerData>, reversed: bool)
    requires Rows(a) && Current(a) && Frozen(a) && row.d.status == PENDING_REFERENCE && row.d.req.id in a.wagers
    requires ReadsFit(a, row.d, row.attempts, reference, reversed)
    requires RetryOutcome(row, a.wallet, r, reference, reversed).Ok?
    ensures var (row', out) := RetryOutcome(row, a.wallet, r, reference, reversed).value;
      && row'.d == out.wager && row'.d.req == row.d.req && row'.attempts == row.attempts && out.wallet.id == a.wallet.id
      && Permitted(a, StandingOf(row'), out)
  {
    match Settle(a.wallet, row.d, row.trace, reference, reversed, Exhausted(row, r), r.stamps)
    case Ok(out) =>
      SettlementFits(a, row.d, row.attempts, row.trace, reference, reversed, Exhausted(row, r), r.stamps);
      SettleMeans(a.wallet, row.d, row.trace, reference, reversed, Exhausted(row, r), r.stamps);
    case Fail(_) =>
      if Exhausted(row, r) {
        FailureFits(a, row.d, row.attempts, row.trace, r.stamps.(now := r.failAt), r.failAt);
      } else {
        DeferralFits(a, row.d, row.attempts);
      }
  }

  lemma WaitingIsExternal(db: Db, id: Id)
    requires Inv(db) && id in db.wagers && db.wagers[id].d.status == PENDING_REFERENCE
    ensures db.wagers[id].d.req.kind != OPENING && db.wagers[id].d.referenceId == NO_ID &&
      Rows(AccountOf(db, db.wagers[id].d.req.walletId))
  {
    var wid := db.wagers[id].d.req.walletId;
    GoodAccount(db, wid);
    assert RowFits(db.wallets[wid], id, AccountOf(db, wid).wagers[id]);
  }

  lemma RetryKeeps(db: Db, r: Retry)
    requires Inv(db) && RetryReference(db, r).Ok?
    ensures Inv(RetryReference(db, r).value.0)
  {
    hide RetryOutcome;
    hide Permitted;
    hide ReadsFit;
    hide RowFits;
    var id := r.claim.transactionId;
    var row := Attempted(db.wagers[id]);
    var wid := row.d.req.walletId;
    var reference := ReadReference(db, row.d.req, r.seesForeign);
    var (row', out) := RetryOutcome(row, db.wallets[wid], r, reference, ReadReversed(db.wagers, reference)).value;
    WaitingIsExternal(db, id);
    RetryReadsFit(db, id, r.seesForeign);
    GoodAccount(db, wid);
    RetryFits(AccountOf(db, wid), row, r, reference, ReadReversed(db.wagers, reference));
    RetryPostKeeps(db, row', out);
  }

  lemma RetryPostKeeps(db: Db, row': WagerRow, out: Outcome)
    requires Inv(db) && row'.d.req.id in db.wagers && db.wagers[row'.d.req.id].d.req == row'.d.req &&
      out.wallet.id == row'.d.req.walletId
    requires Permitted(AccountOf(db, row'.d.req.walletId), StandingOf(row'), out)
    ensures Inv(Post(db, row', out))
  {
    PostShape(db, row', out);
    WriteIsPost(db, db, row', out);
    WriteKeepsGood(db, Post(db, row', out), row', out);
  }

  // ---------- claims ----------

  lemma ClaimRowKeeps(db: Db, id: Id, claim: Option<Claim>)
    requires Inv(db) && id in db.wagers
    ensures Inv(db.(wagers := db.wagers[id := db.wagers[id].(claim := claim)]))
  {
    var db' := db.(wagers := db.wagers[id := db.wagers[id].(claim := claim)]);
    RewriteShape(db, db'.wagers);
    SameAccounts(db, db');
  }

  // ---------- a new wallet ----------

  lemma EmptyAccountGood(w: WalletData)
    requires ValidWallet(w) && w.version == 1 && w.balance.minor == 0
    ensures Good(Account(w, map[], [], []))
  {
    var a := Account(w, map[], [], []);
    assert Worths(a) == [];
    assert Sound(a);
    assert Emitted(a);
  }

  /** What CreateWallet writes for a positive opening. */
  ghost predicate OpensWith(w: WalletData, d: WagerData, e: LedgerData, es: seq<Event>) {
    && ValidWallet(w) && w.version == 1
    && d.req.kind == OPENING && ValidWager(d) && d.status == PROCESSED && d.req.walletId == w.id
    && d.req.playerId == w.playerId
    && d.referenceId == NO_ID && d.req.money == w.balance && d.resultBalance == w.balance && d.resultVersion == 1
    && NewLedgerEntry(e).Ok? && e.walletId == w.id && e.transactionId == d.req.id && e.money == w.balance
    && e.direction == CREDIT
    && e.balanceBefore == Money(0, w.balance.currency) && e.balanceAfter == w.balance
    && BookEvents(w, Standing(d, 0), e, es)
  }

  lemma OpenedAccountSound(w: WalletData, d: WagerData, e: LedgerData, es: seq<Event>)
    requires OpensWith(w, d, e, es)
    ensures Sound(Account(w, map[d.req.id := Standing(d, 0)], [e], es))
  {
    var a := Account(w, map[d.req.id := Standing(d, 0)], [e], es);
    assert d.req.refExternal == "";
    assert Opened(a);
    assert Rows(a) && Current(a) && Chain(a);
    assert Backs(a, 0);
    assert Posted(a) && Frozen(a) && References(a) && Single(a);
  }

  lemma OpenedAccountGood(w: WalletData, d: WagerData, e: LedgerData, es: seq<Event>)
    requires OpensWith(w, d, e, es)
    ensures Good(Account(w, map[d.req.id := Standing(d, 0)], [e], es))
  {
    var a := Account(w, map[d.req.id := Standing(d, 0)], [e], es);
    OpenedAccountSound(w, d, e, es);
    assert Worths(a) == [] + [w.balance.minor];
    TotalAppend([], w.balance.minor);
    OpenedAccountEmits(w, d, e, es);
  }

  lemma OpenedAccountEmits(w: WalletData, d: WagerData, e: LedgerData, es: seq<Event>)
    requires OpensWith(w, d, e, es)
    ensures Emitted(Account(w, map[d.req.id := Standing(d, 0)], [e], es))
  {
    hide ValidWager;
    hide ValidWallet;
    hide NewLedgerEntry;
    var a := Account(w, map[d.req.id := Standing(d, 0)], [e], es);
    OpenedCounts(d, es);
    OpenedChanges(e, es);
    hide Counted;
    hide Changes;
    assert Opened(a);
    assert forall i :: 0 <= i < |es| ==> Carries(a, es[i]);
  }

  lemma OpenedCounts(d: WagerData, es: seq<Event>)
    requires d.status == PROCESSED && |es| == 2 && es[0].WagerEvent? && es[0].data == d && es[1].BalanceChanged?
    ensures Counted(es, map[d.req.id := Standing(d, 0)])
  {
    assert es == [] + [es[0]] + [es[1]] && [es[0]] == [] + [es[0]];
    Appended([], es[0]);
    Appended([es[0]], es[1]);
  }

  lemma OpenedChanges(e: LedgerData, es: seq<Event>)
    requires |es| == 2 && es[0].WagerEvent? && es[1].BalanceChanged? && es[1].entry == e && es[1].walletVersion == 1
    ensures Changes(es) == [Change(e, 1)]
  {
    assert es == [] + [es[0]] + [es[1]] && [es[0]] == [] + [es[0]];
    Appended([], es[0]);
    Appended([es[0]], es[1]);
  }

  lemma AddedAccounts(db: Db, db': Db, w: WalletData)
    requires db.wallets.Keys == db.ledger.Keys == db.outbox.Keys && AllGood(db) && w.id !in db.wallets
    requires db'.wallets == db.wallets[w.id := w] && db'.ledger.Keys == db'.outbox.Keys == db'.wallets.Keys
    requires forall wid :: wid in db.wallets ==>
      db'.ledger[wid] == db.ledger[wid] && db'.outbox[wid] == db.outbox[wid] &&
        RowsIn(db'.wagers, wid) == RowsIn(db.wagers, wid)
    requires Good(AccountOf(db', w.id))
    ensures AllGood(db')
  {
    forall wid | wid in db'.wallets ensures wid !in Broken(db') {
      if wid != w.id {
        assert AccountOf(db', wid) == AccountOf(db, wid);
        assert wid !in Broken(db);
      }
    }
  }

  lemma OpeningFits(o: Opening)
    requires ValidWallet(OpeningWallet(o)) && o.initial.minor > 0 && OpeningRows(o).Ok?
    ensures var (row, e, es) := OpeningRows(o).value;
      OpensWith(OpeningWallet(o), row.d, e, es) && row.d.req == OpeningRequest(o) && row.attempts == 0
  {
    var (row, e, es) := OpeningRows(o).value;
    EventsShape(row.d, 1, Some(e), row.trace, o.stamps.(now := o.now));
  }

  lemma NoRowsYet(db: Db, wid: Id)
    requires Placed(db.wagers, db.wallets) && wid !in db.wallets
    ensures RowsIn(db.wagers, wid) == map[]
  {
  }

  lemma AddWalletShape(db: Db, w: WalletData, entries: seq<LedgerData>, es: seq<Event>)
    requires Shape(db) && w.id !in db.wallets
    ensures Shape(AddWallet(db, w, entries, es))
  {
  }

  /** An OPENING row enters no external index. */
  lemma OpeningShape(db: Db, row: WagerRow)
    requires Shape(db) && row.d.req.id !in db.wagers && row.d.req.walletId in db.wallets && row.d.req.kind == OPENING
    ensures Shape(db.(wagers := db.wagers[row.d.req.id := row]))
  {
    hide KeyIndex;
    hide ExternalIndex;
    OpeningIndexes(db, row);
  }

  lemma OpeningIndexes(db: Db, row: WagerRow)
    requires KeyIndex(db.wagers, db.byKey) && ExternalIndex(db.wagers, db.byExternal) && row.d.req.id !in db.wagers &&
      row.d.req.kind == OPENING
    ensures KeyIndex(db.wagers[row.d.req.id := row], db.byKey) &&
      ExternalIndex(db.wagers[row.d.req.id := row], db.byExternal)
  {
  }

  lemma CreateEmptyKeeps(db: Db, w: WalletData)
    requires Inv(db) && w.id !in db.wallets && ValidWallet(w) && w.version == 1 && w.balance.minor == 0
    ensures Inv(AddWallet(db, w, [], []))
  {
    var db' := AddWallet(db, w, [], []);
    NoRowsYet(db, w.id);
    EmptyAccountGood(w);
    assert AccountOf(db', w.id) == Account(w, map[], [], []);
    AddWalletShape(db, w, [], []);
    AddedAccounts(db, db', w);
  }

  /** The account of a wallet just opened with money. */
  lemma OpenedAccount(db: Db, w: WalletData, row: WagerRow, e: LedgerData, es: seq<Event>)
    requires Placed(db.wagers, db.wallets) && w.id !in db.wallets && row.d.req.id !in db.wagers &&
      row.d.req.walletId == w.id && row.attempts == 0
    ensures var created := AddWallet(db, w, [e], es);
      var db' := created.(wagers := created.wagers[row.d.req.id := row]);
      && AccountOf(db', w.id) == Account(w, map[row.d.req.id := Standing(row.d, 0)], [e], es)
      && forall wid :: wid in db.wallets ==> RowsIn(db'.wagers, wid) == RowsIn(db.wagers, wid)
  {
    NoRowsYet(db, w.id);
    var wagers := db.wagers[row.d.req.id := row];
    WrittenRows(db.wagers, wagers, row);
  }

  lemma CreateOpenedKeeps(db: Db, w: WalletData, row: WagerRow, e: LedgerData, es: seq<Event>)
    requires Inv(db) && w.id !in db.wallets && row.d.req.id !in db.wagers && row.attempts == 0
    requires row.d.req.kind == OPENING && row.d.req.walletId == w.id && OpensWith(w, row.d, e, es)
    ensures var created := AddWallet(db, w, [e], es); Inv(created.(wagers := created.wagers[row.d.req.id := row]))
  {
    hide OpensWith;
    hide Good;
    hide AllGood;
    hide Placed;
    hide KeyIndex;
    hide ExternalIndex;
    hide InboxClosed;
    hide RowsIn;
    var created := AddWallet(db, w, [e], es);
    OpenedAccountGood(w, row.d, e, es);
    OpenedAccount(db, w, row, e, es);
    OpenedShape(db, w, row, e, es);
    AddedAccounts(db, created.(wagers := created.wagers[row.d.req.id := row]), w);
  }

  lemma OpenedShape(db: Db, w: WalletData, row: WagerRow, e: LedgerData, es: seq<Event>)
    requires Shape(db) && w.id !in db.wallets && row.d.req.id !in db.wagers && row.d.req.kind == OPENING &&
      row.d.req.walletId == w.id
    ensures var created := AddWallet(db, w, [e], es); Shape(created.(wagers := created.wagers[row.d.req.id := row]))
  {
    hide Placed;
    hide KeyIndex;
    hide ExternalIndex;
    hide InboxClosed;
    AddWalletShape(db, w, [e], es);
    OpeningShape(AddWallet(db, w, [e], es), row);
  }

  lemma CreateKeeps(db: Db, o: Opening)
    requires Inv(db) && CreateWallet(db, o).Ok?
    ensures Inv(CreateWallet(db, o).value)
  {
    if o.initial.minor == 0 {
      CreateEmptyKeeps(db, OpeningWallet(o));
    } else {
      var (row, e, es) := OpeningRows(o).value;
      OpeningFits(o);
      CreateOpenedKeeps(db, OpeningWallet(o), row, e, es);
    }
  }

  // ---------- all runs ----------

  lemma StepKeeps(db: Db, op: Op)
    requires Inv(db)
    ensures Inv(Step(db, op))
  {
    hide ProcessWager;
    hide RetryReference;
    hide CreateWallet;
    hide AllGood;
    hide Placed;
    hide KeyIndex;
    hide ExternalIndex;
    hide InboxClosed;
    match op
    case OpCreate(o) => if CreateWallet(db, o).Ok? { CreateKeeps(db, o); }
    case OpProcess(call) => if ProcessWager(db, call).Ok? { ProcessKeeps(db, call); }
    case OpRetry(r) => if RetryReference(db, r).Ok? { RetryKeeps(db, r); }
    case OpClaim(id, claim, clock) => if id in db.wagers { ClaimRowKeeps(db, id, Some(claim)); }
    case OpRelease(id, owner) => if id in db.wagers { ClaimRowKeeps(db, id, None); }
  }

  lemma EmptyKeeps()
    ensures Inv(EMPTY)
  {
    assert Broken(EMPTY) == {};
  }

  /** The tables after a run. Whatever the run, every invariant holds. */
  ghost function Run(ops: seq<Op>): (db: Db)
    ensures Inv(db)
  {
    if ops == [] then
      EmptyKeeps();
      EMPTY
    else
      var before := Run(ops[..|ops| - 1]);
      StepKeeps(before, ops[|ops| - 1]);
      Step(before, ops[|ops| - 1])
  }

  lemma RunUnfolds(ops: seq<Op>)
    requires ops != []
    ensures Run(ops) == Step(Run(ops[..|ops| - 1]), ops[|ops| - 1])
  {
    hide Inv;
    hide Step;
  }
}
