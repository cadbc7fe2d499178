/**
 * The rules that the database enforces on its own, a second implementation of part of the ledger's
 * (migrations/000001_domain_schema.sql, 000003_database_guards.sql, 000004_ledger_integrity.sql): the engine's
 * own commits never run into them, and both sides agree on the direction of every movement.
 */
module Guards {
  import opened Prelude
  import opened Wallet
  import opened Wager
  import opened Ledger
  import opened Settlement
  import opened Tables
  import opened Accounts
  import opened Reachable
  import opened Runs
  import opened Growth

  // ---------- verify_wager_ledger ----------

  /** SELECT ... WHERE wallet_id and transaction_id: the unique index admits one row. */
  function EntryFor(ledger: seq<LedgerData>, id: Id): (e: Option<LedgerData>)
    ensures e.Some? ==> e.value in ledger && e.value.transactionId == id
    ensures e == None ==> forall i :: 0 <= i < |ledger| ==> ledger[i].transactionId != id
  {
    if ledger == [] then None
    else if ledger[|ledger| - 1].transactionId == id then Some(ledger[|ledger| - 1])
    else EntryFor(ledger[..|ledger| - 1], id)
  }

  /** The CASE of the validator; NONE stands for its exception. */
  function SqlDirection(wagers: map<Id, WagerRow>, w: WagerData): Direction {
    match w.req.kind
    case BET => DEBIT
    case OPENING => CREDIT
    case WIN => CREDIT
    case REFUND => CREDIT
    case ROLLBACK =>
      if w.referenceId !in wagers || wagers[w.referenceId].d.status != PROCESSED then NONE
      else
        (match wagers[w.referenceId].d.req.kind
         case BET => CREDIT
         case WIN => DEBIT
         case REFUND => DEBIT
         case _ => NONE)
    case LOSS => NONE
  }

  predicate VerifyWagerLedger(db: Db, id: Id) {
    && id in db.wagers
    && var w := db.wagers[id].d;
    && w.req.walletId in db.ledger && w.status != PENDING
    && var e := EntryFor(db.ledger[w.req.walletId], w.req.id);
    if w.status == PROCESSED && w.req.kind != LOSS then
      && e.Some? && e.value.money.minor == w.req.money.minor && e.value.balanceAfter.minor == w.resultBalance.minor
      && SqlDirection(db.wagers, w) != NONE && e.value.direction == SqlDirection(db.wagers, w)
    else e == None
  }

  /**
   * What the validator makes sure of: the wager is not PENDING; if it moved money its wallet has an entry for it, of
   * its amount, up to its result, and on the side of its kind; and if it moved none there is no entry.
   */
  lemma ValidatorMeans(db: Db, id: Id)
    requires VerifyWagerLedger(db, id)
    ensures id in db.wagers && db.wagers[id].d.status != PENDING && db.wagers[id].d.req.walletId in db.ledger
    ensures var w := db.wagers[id].d; var ledger := db.ledger[w.req.walletId];
      if w.status == PROCESSED && w.req.kind != LOSS then
        exists i :: 0 <= i < |ledger| && var e := ledger[i];
          && e.transactionId == w.req.id && e.money.minor == w.req.money.minor
          && e.balanceAfter.minor == w.resultBalance.minor
          && (e.direction == DEBIT <==>
                || w.req.kind == BET
                || (w.req.kind == ROLLBACK && w.referenceId in db.wagers &&
                  db.wagers[w.referenceId].d.req.kind in {WIN, REFUND}))
          && (e.direction == CREDIT <==>
                || w.req.kind in {OPENING, WIN, REFUND}
                || (w.req.kind == ROLLBACK && w.referenceId in db.wagers &&
                  db.wagers[w.referenceId].d.req.kind == BET))
      else forall i :: 0 <= i < |ledger| ==> ledger[i].transactionId != w.req.id
  {
    var w := db.wagers[id].d;
    var ledger := db.ledger[w.req.walletId];
    var e := EntryFor(ledger, w.req.id);
    if e.Some? {
      var i :| 0 <= i < |ledger| && ledger[i] == e.value;
    }
  }

  /** A wager's entries sit at one place, told by its result version. */
  lemma EntryIsPosted(a: Account, id: Id, i: nat)
    requires Backed(a) && i < |a.ledger| && a.ledger[i].transactionId == id
    ensures id in a.wagers && Financial(a.wagers[id].d) && i == PrefixOf(a, a.wagers[id].d.resultVersion) - 1
  {
    assert Backs(a, i);
  }

  /** A processed wager with money has its entry, with its amount and the balance it froze. */
  lemma EntryMatches(a: Account, id: Id)
    requires Posted(a) && Backed(a) && id in a.wagers && Financial(a.wagers[id].d)
    ensures var w, e := a.wagers[id].d, EntryFor(a.ledger, id);
      e.Some? && e.value.money == w.req.money && e.value.balanceAfter == w.resultBalance &&
        e.value.direction == ExpectedDirection(a, w)
  {
    hide ExpectedDirection;
    hide RowFits;
    var i := PrefixOf(a, a.wagers[id].d.resultVersion) - 1;
    assert a.ledger[i].transactionId == id;
    var e := EntryFor(a.ledger, id);
    var j :| 0 <= j < |a.ledger| && a.ledger[j] == e.value;
    assert Backs(a, j);
  }

  lemma NoEntryOtherwise(a: Account, id: Id)
    requires Backed(a) && id in a.wagers && !Financial(a.wagers[id].d)
    ensures EntryFor(a.ledger, id) == None
  {
    var e := EntryFor(a.ledger, id);
    if e.Some? {
      var i :| 0 <= i < |a.ledger| && a.ledger[i] == e.value;
      EntryIsPosted(a, id, i);
    }
  }

  lemma AccountVerifies(db: Db, id: Id)
    requires Shape(db) && id in db.wagers && Sound(AccountOf(db, db.wagers[id].d.req.walletId))
    ensures VerifyWagerLedger(db, id)
  {
    hide Chain;
    hide Current;
    hide Frozen;
    hide Single;
    hide Backed;
    hide Posted;
    hide References;
    hide ExpectedDirection;
    hide SqlDirection;
    hide EntryFor;
    hide KeyIndex;
    hide ExternalIndex;
    hide InboxClosed;
    var a := AccountOf(db, db.wagers[id].d.req.walletId);
    assert a.wagers[id].d == db.wagers[id].d && RowFits(a.wallet, id, a.wagers[id]);
    if Financial(db.wagers[id].d) {
      EntryMatches(a, id);
      DirectionsMeet(db, id);
    } else {
      NoEntryOtherwise(a, id);
    }
  }

  lemma RollbackHasReference(a: Account, id: Id)
    requires Rows(a) && References(a) && id in a.wagers && a.wagers[id].d.status == PROCESSED &&
      a.wagers[id].d.req.kind == ROLLBACK
    ensures ReferenceFits(a, a.wagers[id].d)
  {
    assert RowFits(a.wallet, id, a.wagers[id]);
  }

  /** The validator's direction is the one that the ledger was written with. */
  lemma DirectionsMeet(db: Db, id: Id)
    requires Placed(db.wagers, db.wallets) && db.ledger.Keys == db.outbox.Keys == db.wallets.Keys && id in db.wagers &&
      Financial(db.wagers[id].d)
    requires var a := AccountOf(db, db.wagers[id].d.req.walletId); Rows(a) && References(a)
    ensures var a := AccountOf(db, db.wagers[id].d.req.walletId);
      SqlDirection(db.wagers, db.wagers[id].d) == ExpectedDirection(a, db.wagers[id].d) != NONE
  {
    hide Rows;
    hide References;
    var w := db.wagers[id].d;
    var a := AccountOf(db, w.req.walletId);
    if w.req.kind == ROLLBACK {
      RollbackHasReference(a, id);
      var t := w.referenceId;
      assert t in a.wagers && t in db.wagers && a.wagers[t].d == db.wagers[t].d;
    }
  }

  /**
   * After every run each wager passes the validator, so neither deferred trigger ever fires on the engine's commits.
   */
  lemma ValidatorNeverFires(ops: seq<Op>, id: Id)
    requires id in Run(ops).wagers
    ensures VerifyWagerLedger(Run(ops), id)
  {
    hide Run;
    hide Sound;
    hide VerifyWagerLedger;
    GoodAccount(Run(ops), Run(ops).wagers[id].d.req.walletId);
    AccountVerifies(Run(ops), id);
  }

  /**
   * Whatever an application settles, on whatever it read, the direction it writes to the ledger is the one that the
   * validator derives from the settled wager and the reference's row.
   */
  lemma DirectionsAgree(w: WalletData, d: WagerData, trace: Trace, reference: Option<WagerData>, reversed: bool,
          expired: bool, st: Stamps, wagers: map<Id, WagerRow>)
    requires Settle(w, d, trace, reference, reversed, expired, st).Ok?
    requires Settle(w, d, trace, reference, reversed, expired, st).value.entry.Some?
    requires reference.Some? ==>
      reference.value.req.id in wagers && wagers[reference.value.req.id].d == reference.value
    ensures var out := Settle(w, d, trace, reference, reversed, expired, st).value;
      out.entry.value.direction == SqlDirection(wagers, out.wager) != NONE
  {
    hide Settle;
    SettleMeans(w, d, trace, reference, reversed, expired, st);
    AcceptedMeans(w, d, reference, reversed);
  }

  // ---------- append-only ledger, immutable outbox ----------

  /** Entries and events are only ever added at the end. */
  ghost predicate Appends(db: Db, db': Db) {
    && (forall w :: w in db.ledger ==> w in db'.ledger && db.ledger[w] <= db'.ledger[w])
    && (forall w :: w in db.outbox ==> w in db'.outbox && db.outbox[w] <= db'.outbox[w])
  }

  lemma PostAppends(db: Db, row: WagerRow, out: Outcome)
    requires out.wallet.id in db.ledger && out.wallet.id in db.outbox
    ensures Appends(db, Post(db, row, out))
  {
  }

  lemma StepAppends(db: Db, op: Op)
    requires Shape(db)
    ensures Appends(db, Step(db, op))
  {
    hide ProcessWager;
    hide RetryReference;
    hide CreateWallet;
    hide Claimable;
    hide Placed;
    hide KeyIndex;
    hide ExternalIndex;
    hide InboxClosed;
    match op
    case OpCreate(o) =>
      if CreateWallet(db, o).Ok? { var row, entries, events := CreateIs(db, o); }
    case OpProcess(call) =>
      if ProcessWager(db, call).Ok? { ProcessAppends(db, call); }
    case OpRetry(r) =>
      if RetryReference(db, r).Ok? { RetryAppends(db, r); }
    case _ =>
  }

  lemma CompletionAppends(db: Db, inbox: Option<InboxMessage>, id: Id, at: Time)
    ensures Appends(db, CompleteInbox(db, inbox, id, at))
  {
  }

  lemma ProcessAppends(db: Db, call: Call)
    requires Shape(db) && ProcessWager(db, call).Ok?
    ensures Appends(db, ProcessWager(db, call).value.0)
  {
    hide FindIdentity;
    hide ProcessNew;
    hide CompleteInbox;
    hide ReserveInbox;
    hide ResultOf;
    hide Appends;
    hide Placed;
    AppendsNothing(db);
    var c := NormalizeCommand(call.cmd).value;
    hide NormalizeCommand;
    if ReserveInbox(db, call.inbox) == Reserved {
      match FindIdentity(db, c)
      case Found(d) => CompletionAppends(db, call.inbox, d.req.id, call.stamps.dbNow);
      case Absent => NewAppends(db, call, c);
    }
  }

  lemma NewAppends(db: Db, call: Call, c: Command)
    requires Shape(db) && c.kind.Some? && FindIdentity(db, c) == Absent && ProcessNew(db, call, c).Ok?
    ensures Appends(db, ProcessNew(db, call, c).value.0)
  {
    hide Finish;
    hide Placed;
    hide InboxClosed;
    hide FindIdentity;
    hide Appends;
    var row := RowOf(call, c);
    NewIsInsertable(db, call, c);
    InsertShape(db, row);
    NewIsFinished(db, call, c);
    var inserted := Insert(db, row);
    var reference := ReadReference(inserted, row.d.req, call.seesForeign);
    FinishAppends(db, call, db.wallets[c.walletId], row, reference, ReadReversed(inserted.wagers, reference));
  }

  lemma FinishAppends(db: Db, call: Call, w: WalletData, row: WagerRow, reference: Option<WagerData>, reversed: bool)
    requires w.id in db.ledger && w.id in db.outbox && Finish(db, call, w, row, reference, reversed).Ok?
    ensures Appends(db, Finish(db, call, w, row, reference, reversed).value.0)
  {
    hide Finish;
    var row', out := FinishIs(db, call, w, row, reference, reversed);
    PostAppends(Insert(db, row), row', out);
    hide Post;
  }

  lemma RetryAppends(db: Db, r: Retry)
    requires Shape(db) && RetryReference(db, r).Ok?
    ensures Appends(db, RetryReference(db, r).value.0)
  {
    hide RetryOutcome;
    hide Post;
    hide Placed;
    hide KeyIndex;
    hide InboxClosed;
    hide Appends;
    var row := Attempted(db.wagers[r.claim.transactionId]);
    var reference := ReadReference(db, row.d.req, r.seesForeign);
    var (row', out) :=
      RetryOutcome(row, db.wallets[r.claim.walletId], r, reference, ReadReversed(db.wagers, reference)).value;
    PostAppends(db, row', out);
  }

  lemma AppendsNothing(db: Db)
    ensures Appends(db, db)
  {
  }

  lemma AppendsOn(x: Db, y: Db, z: Db)
    requires Appends(x, y) && Appends(y, z)
    ensures Appends(x, z)
  {
  }

  /** What a run has written to ledgers and outboxes is a prefix of what any continuation has. */
  lemma {:induction false} RunAppends(ops: seq<Op>, more: seq<Op>)
    ensures Appends(Run(ops), Run(ops + more))
    decreases |more|
  {
    hide AllGood;
    hide Step;
    hide Appends;
    hide Placed;
    hide KeyIndex;
    hide ExternalIndex;
    hide InboxClosed;
    if more == [] {
      assert ops + more == ops;
      AppendsNothing(Run(ops));
    } else {
      var front := ops + more[..|more| - 1];
      assert (ops + more)[..|ops + more| - 1] == front;
      RunAppends(ops, more[..|more| - 1]);
      StepAppends(Run(front), more[|more| - 1]);
      AppendsOn(Run(ops), Run(front), Run(ops + more));
    }
  }

  // ---------- unique indexes ----------

  /** wager_single_reversal never refuses a commit: a wager is reversed once, in whatever wallet. */
  lemma ReversalsAreSingle(ops: seq<Op>, r: Id, q: Id, id: Id)
    requires r in Run(ops).wagers && q in Run(ops).wagers && Reverses(Run(ops).wagers[r].d, id) &&
      Reverses(Run(ops).wagers[q].d, id)
    ensures r == q
  {
    hide Run;
    var db := Run(ops);
    var wid := db.wagers[r].d.req.walletId;
    GoodAccount(db, wid);
    GoodAccount(db, db.wagers[q].d.req.walletId);
    TargetIsLocal(AccountOf(db, wid), r);
    TargetIsLocal(AccountOf(db, db.wagers[q].d.req.walletId), q);
  }

  lemma TargetIsLocal(a: Account, r: Id)
    requires Rows(a) && References(a) && r in a.wagers && Reverses(a.wagers[r].d, a.wagers[r].d.referenceId)
    ensures a.wagers[r].d.referenceId in a.wagers
  {
    assert RowFits(a.wallet, r, a.wagers[r]);
    assert ReferenceFits(a, a.wagers[r].d);
  }

  /** wager_opening_once: a wallet has one OPENING. */
  lemma OpeningsAreSingle(ops: seq<Op>, r: Id, q: Id)
    requires r in Run(ops).wagers && q in Run(ops).wagers && Run(ops).wagers[r].d.req.kind == OPENING &&
      Run(ops).wagers[q].d.req.kind == OPENING
    requires Run(ops).wagers[r].d.req.walletId == Run(ops).wagers[q].d.req.walletId
    ensures r == q
  {
    hide Run;
    var db := Run(ops);
    var a := AccountOf(db, db.wagers[r].d.req.walletId);
    GoodAccount(db, a.wallet.id);
    OpeningIsFirst(a, r);
    OpeningIsFirst(a, q);
  }

  lemma OpeningIsFirst(a: Account, r: Id)
    requires Rows(a) && Posted(a) && Backed(a) && r in a.wagers && a.wagers[r].d.req.kind == OPENING
    ensures a.ledger != [] && a.ledger[0].transactionId == r
  {
    assert RowFits(a.wallet, r, a.wagers[r]);
    assert Financial(a.wagers[r].d);
    var i := PrefixOf(a, a.wagers[r].d.resultVersion) - 1;
    assert a.ledger[i].transactionId == r;
    assert Backs(a, i);
  }
}
