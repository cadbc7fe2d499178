/** Waiting for a reference ends (internal/adapters/postgres/work.go). */
module Retries {
  import opened Prelude
  import opened Wallet
  import opened Wager
  import opened Ledger
  import opened Settlement
  import opened Tables
  import opened Reachable
  import opened Runs
  import opened Growth

  // ---------- one attempt ----------

  /** The claim holds: its token is on the waiting row of its wallet, and its time is not over. */
  predicate Holds(db: Db, claim: ReferenceClaim, clock: Time) {
    && claim.transactionId in db.wagers
    && var row := db.wagers[claim.transactionId];
    && row.d.status == PENDING_REFERENCE && row.d.req.walletId == claim.walletId
    && row.claim.Some? && row.claim.value.token == claim.token && clock < row.claim.value.until
  }

  /** No other attempt follows this one, by the count or by the age of the wager. */
  predicate IsLast(row: WagerRow, r: Retry) {
    row.attempts + 1 >= r.maxAttempts || r.since - row.d.req.createdAt >= r.ttl
  }

  /** Before anything is read of the reference: limits that make no sense, no wallet, no claim. */
  lemma RetryRefusals(db: Db, r: Retry)
    requires Shape(db)
    ensures r.maxAttempts < 1 || r.ttl <= 0 ==> RetryReference(db, r) == Fail(INVALID_INPUT)
    ensures r.maxAttempts >= 1 && r.ttl > 0 && r.claim.walletId !in db.wallets ==>
      RetryReference(db, r) == Fail(NOT_FOUND)
    ensures r.maxAttempts >= 1 && r.ttl > 0 && r.claim.walletId in db.wallets && !Holds(db, r.claim, r.clock) ==>
      RetryReference(db, r) == Fail(CLAIM_LOST)
  {
    hide FinishRetry;
    hide KeyIndex;
    hide InboxClosed;
    hide Placed;
  }

  /** A committed retry had its claim, counts once, and is final when it was the last one allowed. */
  lemma RetryProgress(db: Db, r: Retry)
    requires Shape(db) && RetryReference(db, r).Ok?
    ensures var (db', reply) := RetryReference(db, r).value; var id := r.claim.transactionId;
      && r.maxAttempts >= 1 && r.ttl > 0 && Holds(db, r.claim, r.clock) && id in db'.wagers
      && db'.wagers[id].attempts == db.wagers[id].attempts + 1
      && (db.wagers[id].attempts + 1 >= r.maxAttempts || r.since - db.wagers[id].d.req.createdAt >= r.ttl ==>
        db'.wagers[id].d.status.Terminal())
      && (db'.wagers[id].d.status.Terminal() || db'.wagers[id].d.status == PENDING_REFERENCE)
      && db'.wagers[id].claim == None
      && reply == ResultOf(db'.wagers[id].d, db'.wallets[db.wagers[id].d.req.walletId], false)
      && forall other :: other in db.wagers && other != id ==>
        other in db'.wagers && db'.wagers[other] == db.wagers[other]
  {
    hide RetryOutcome;
    hide InboxClosed;
    var row := Attempted(db.wagers[r.claim.transactionId]);
    var reference := ReadReference(db, row.d.req, r.seesForeign);
    OutcomeProgress(row, db.wallets[r.claim.walletId], r, reference, ReadReversed(db.wagers, reference));
  }

  lemma OutcomeProgress(row: WagerRow, w: WalletData, r: Retry, reference: Option<WagerData>, reversed: bool)
    requires row.d.status == PENDING_REFERENCE && RetryOutcome(row, w, r, reference, reversed).Ok?
    ensures var (row', out) := RetryOutcome(row, w, r, reference, reversed).value;
      && row'.d.req == row.d.req && row'.attempts == row.attempts && row'.d == out.wager && row'.claim == None
      && (Exhausted(row, r) ==> row'.d.status.Terminal())
      && (row'.d.status.Terminal() || row'.d.status == PENDING_REFERENCE)
  {
    var exhausted := Exhausted(row, r);
    if Settle(w, row.d, row.trace, reference, reversed, exhausted, r.stamps).Ok? {
      SettleMeans(w, row.d, row.trace, reference, reversed, exhausted, r.stamps);
    }
  }

  /** A waiting wager is tried again later, after a delay that grows with its attempts and never exceeds an hour. */
  lemma RetryIsRescheduled(db: Db, r: Retry)
    requires Shape(db) && RetryReference(db, r).Ok?
    requires RetryReference(db, r).value.0.wagers[r.claim.transactionId].d.status == PENDING_REFERENCE
    ensures var row := RetryReference(db, r).value.0.wagers[r.claim.transactionId];
      row.attempts == db.wagers[r.claim.transactionId].attempts + 1
      && row.nextAttemptAt == Some(r.stamps.dbNow + Min(Pow2(Min(row.attempts, 12)), 3600) * SECOND)
      && 2 <= Min(Pow2(Min(row.attempts, 12)), 3600) <= 3600
  {
    hide RetryOutcome;
    hide KeyIndex;
    hide InboxClosed;
    hide Placed;
    hide RetryDelay;
    hide RetryReference;
    RetryProgress(db, r);
    RetryIs(db, r);
    IndexedRows(db);
    var row := Attempted(db.wagers[r.claim.transactionId]);
    var reference := ReadReference(db, row.d.req, r.seesForeign);
    RetryRow(row, db.wallets[r.claim.walletId], r, reference, ReadReversed(db.wagers, reference));
    OutcomeReschedules(row, db.wallets[r.claim.walletId], r, reference, ReadReversed(db.wagers, reference));
    DelayBounds(row.attempts);
  }

  lemma OutcomeReschedules(row: WagerRow, w: WalletData, r: Retry, reference: Option<WagerData>, reversed: bool)
    requires RetryOutcome(row, w, r, reference, reversed).Ok?
    ensures var row' := RetryOutcome(row, w, r, reference, reversed).value.0;
      row'.d.status == PENDING_REFERENCE ==> row'.nextAttemptAt == Some(r.stamps.dbNow + RetryDelay(row.attempts))
  {
    hide Settle;
    hide EventsOf;
    hide CanChange;
    hide Exhausted;
    hide RetryDelay;
    hide ValidWager;
  }

  lemma {:induction false} Pow2Grows(m: nat, n: nat)
    requires m <= n
    ensures 1 <= Pow2(m) <= Pow2(n)
  {
    if m < n {
      Pow2Grows(m, n - 1);
    } else if m > 0 {
      Pow2Grows(m - 1, m - 1);
    }
  }

  lemma DelayBounds(attempts: nat)
    requires attempts >= 1
    ensures RetryDelay(attempts) == Min(Pow2(Min(attempts, 12)), 3600) * SECOND
    ensures 2 <= Min(Pow2(Min(attempts, 12)), 3600) <= 3600
    ensures 2 * SECOND <= RetryDelay(attempts) <= 3600 * SECOND
  {
    assert Pow2(11) == 2048 by { assert Pow2(4) == 16; assert Pow2(8) == 256; }
    assert Pow2(12) == 4096;
    if attempts < 12 {
      Pow2Grows(1, attempts);
      Pow2Grows(attempts, 11);
    }
  }

  // ---------- what an attempt comes to ----------

  /**
   * An attempt commits what its application says, told whether it is the last one. If the application fails, wallets
   * and ledgers stay as they are; the wager has FAILED if the attempt was the last one, and is as it was otherwise.
   */
  lemma AttemptOutcome(db: Db, r: Retry)
    requires Shape(db) && RetryReference(db, r).Ok?
    ensures Holds(db, r.claim, r.clock) && r.claim.walletId in db.wallets
    ensures r.claim.transactionId in RetryReference(db, r).value.0.wagers
    ensures var id, wid := r.claim.transactionId, r.claim.walletId; var row, w := db.wagers[id], db.wallets[wid];
      var reference := ReadReference(db, row.d.req, r.seesForeign);
      var settled :=
        Settle(w, row.d, row.trace, reference, ReadReversed(db.wagers, reference), IsLast(row, r), r.stamps);
      var db' := RetryReference(db, r).value.0;
      && db'.byKey == db.byKey && db'.byExternal == db.byExternal && db'.inbox == db.inbox
      && (settled.Ok? ==>
            && var out := settled.value;
            && db'.wagers[id].d == out.wager && db'.wallets == db.wallets[wid := out.wallet]
            && db'.outbox == db.outbox[wid := db.outbox[wid] + out.events]
            && db'.ledger ==
              if out.entry.Some? then db.ledger[wid := db.ledger[wid] + [out.entry.value]] else db.ledger)
      && (settled.Fail? ==> db'.wallets == db.wallets && db'.ledger == db.ledger)
      && (settled.Fail? && !IsLast(row, r) ==> db'.wagers[id].d == row.d && db'.outbox == db.outbox)
      && (settled.Fail? && IsLast(row, r) ==>
            && var d := db'.wagers[id].d;
            && d.status == FAILED && d.failureCode == PERMANENT_PROCESSING_FAILURE && d.req == row.d.req
            && d.resultBalance == w.balance && d.resultVersion == w.version && d.completedAt == Some(r.failAt))
  {
    hide RetryOutcome;
    hide KeyIndex;
    hide InboxClosed;
    hide RetryReference;
    hide Settle;
    RetryProgress(db, r);
    RetryIs(db, r);
    IndexedRows(db);
    var row := Attempted(db.wagers[r.claim.transactionId]);
    var w := db.wallets[r.claim.walletId];
    var reference := ReadReference(db, row.d.req, r.seesForeign);
    var reversed := ReadReversed(db.wagers, reference);
    OutcomeIs(row, w, r, reference, reversed);
    RetryRow(row, w, r, reference, reversed);
    NothingPosted(db, w);
  }

  lemma NothingPosted(db: Db, w: WalletData)
    requires w.id in db.wallets && db.wallets[w.id] == w && w.id in db.outbox
    ensures db.wallets[w.id := w] == db.wallets && db.outbox[w.id := db.outbox[w.id] + []] == db.outbox
  {
    assert db.outbox[w.id] + [] == db.outbox[w.id];
  }

  lemma OutcomeIs(row: WagerRow, w: WalletData, r: Retry, reference: Option<WagerData>, reversed: bool)
    requires RetryOutcome(row, w, r, reference, reversed).Ok?
    ensures var last := row.attempts >= r.maxAttempts || r.since - row.d.req.createdAt >= r.ttl;
      var settled := Settle(w, row.d, row.trace, reference, reversed, last, r.stamps);
      var (row', out) := RetryOutcome(row, w, r, reference, reversed).value;
      && (settled.Ok? ==> row'.d == settled.value.wager && out == settled.value)
      && (settled.Fail? ==> out.wallet == w && out.entry == None)
      && (settled.Fail? && !last ==> row'.d == row.d && out.events == [])
      && (settled.Fail? && last ==>
            && row'.d.status == FAILED && row'.d.failureCode == PERMANENT_PROCESSING_FAILURE && row'.d.req == row.d.req
            && row'.d.resultBalance == w.balance && row'.d.resultVersion == w.version
            && row'.d.completedAt == Some(r.failAt))
  {
    hide Settle;
    hide EventsOf;
    hide CanChange;
    hide RetryDelay;
  }

  /**
   * While the reference is absent or still open, an attempt that is not the last one leaves the wager waiting and
   * touches nothing else; the last one ends the wait, for want of the reference or because the application failed.
   */
  lemma WaitingGoesOn(db: Db, r: Retry)
    requires Shape(db) && RetryReference(db, r).Ok?
    requires r.claim.transactionId in db.wagers && r.claim.walletId in db.wallets
    requires Eligible(db.wallets[r.claim.walletId], db.wagers[r.claim.transactionId].d)
    requires var d := db.wagers[r.claim.transactionId].d;
      var reference := ReadReference(db, d.req, r.seesForeign);
      reference.Some? ==> MayName(d, reference.value) && reference.value.status in {PENDING, PENDING_REFERENCE}
    ensures r.claim.transactionId in RetryReference(db, r).value.0.wagers
    ensures var id := r.claim.transactionId; var row := db.wagers[id];
      var db' := RetryReference(db, r).value.0; var d' := db'.wagers[id].d;
      && db'.wallets == db.wallets
      && (row.attempts + 1 < r.maxAttempts && r.since - row.d.req.createdAt < r.ttl ==>
            && d'.status == PENDING_REFERENCE && d'.failureCode == NoCode && d'.req == row.d.req
            && d' == row.d.(updatedAt := d'.updatedAt))
      && (row.attempts + 1 >= r.maxAttempts || r.since - row.d.req.createdAt >= r.ttl ==>
            || (d'.status == REJECTED && d'.failureCode == REFERENCE_NOT_FOUND)
            || (d'.status == FAILED && d'.failureCode == PERMANENT_PROCESSING_FAILURE))
  {
    hide RetryReference;
    hide KeyIndex;
    hide InboxClosed;
    hide Eligible;
    hide MayName;
    hide Settle;
    AttemptOutcome(db, r);
    var row := db.wagers[r.claim.transactionId];
    var w := db.wallets[r.claim.walletId];
    var reference := ReadReference(db, row.d.req, r.seesForeign);
    OpenWaits(w, row.d, row.trace, reference, ReadReversed(db.wagers, reference), IsLast(row, r), r.stamps);
    NothingPosted(db, w);
  }

  lemma OpenWaits(w: WalletData, d: WagerData, trace: Trace, reference: Option<WagerData>, reversed: bool, last: bool,
                  st: Stamps)
    requires Eligible(w, d) && d.status == PENDING_REFERENCE
    requires reference.Some? ==> MayName(d, reference.value) && reference.value.status in {PENDING, PENDING_REFERENCE}
    ensures d.failureCode == NoCode
    ensures var settled := Settle(w, d, trace, reference, reversed, last, st);
      settled.Ok? ==>
        && settled.value.wallet == w
        && (last ==> settled.value.wager.status == REJECTED && settled.value.wager.failureCode == REFERENCE_NOT_FOUND)
        && (!last ==> settled.value.wager == d.(updatedAt := st.now))
  {
    hide ValidRequest;
    hide ValidWallet;
    hide Settle;
    DecisionTable(w, d, reference, reversed);
    if Settle(w, d, trace, reference, reversed, last, st).Ok? {
      SettleMeans(w, d, trace, reference, reversed, last, st);
      SettleSays(w, d, trace, reference, reversed, last, st);
    }
  }

  // ---------- a failed application ----------

  /** FAILED records the failure and its one event; wallets and ledger are as they were before the attempt. */
  lemma FailureIsClean(db: Db, r: Retry)
    requires Inv(db) && RetryReference(db, r).Ok?
    requires RetryReference(db, r).value.0.wagers[r.claim.transactionId].d.status == FAILED
    ensures var db' := RetryReference(db, r).value.0; var wid := r.claim.walletId;
      var d := db.wagers[r.claim.transactionId].d; var w := db.wallets[wid];
      && db'.wallets == db.wallets && db'.ledger == db.ledger && db'.inbox == db.inbox
      && db'.wagers[r.claim.transactionId].d ==
        Changed(d, ToFailed(PERMANENT_PROCESSING_FAILURE, w.balance, w.version), r.failAt)
      && |db'.outbox[wid]| == |db.outbox[wid]| + 1 && db'.outbox[wid][..|db.outbox[wid]|] == db.outbox[wid]
      && db'.outbox[wid][|db.outbox[wid]|].WagerEvent?
      && db'.outbox[wid][|db.outbox[wid]|].data == db'.wagers[r.claim.transactionId].d
      && forall other :: other in db.outbox && other != wid ==> db'.outbox[other] == db.outbox[other]
  {
    hide RetryOutcome;
    hide AllGood;
    hide InboxClosed;
    hide Placed;
    hide KeyIndex;
    hide Post;
    IndexedRows(db);
    var row := Attempted(db.wagers[r.claim.transactionId]);
    var wid := r.claim.walletId;
    var w := db.wallets[wid];
    var reference := ReadReference(db, row.d.req, r.seesForeign);
    var reversed := ReadReversed(db.wagers, reference);
    RetryRow(row, w, r, reference, reversed);
    var (row', out) := RetryOutcome(row, w, r, reference, reversed).value;
    RetryIs(db, r);
    OutcomeFails(row, w, r, reference, reversed);
    FailedPost(db, row', out, w);
  }

  lemma IndexedRows(db: Db)
    requires Placed(db.wagers, db.wallets)
    ensures forall id :: id in db.wagers ==> db.wagers[id].d.req.id == id
  {
  }

  /** A committed retry posts the outcome of its row. */
  lemma RetryIs(db: Db, r: Retry)
    requires Shape(db) && RetryReference(db, r).Ok?
    ensures r.claim.transactionId in db.wagers && r.claim.walletId in db.wallets
    ensures db.wagers[r.claim.transactionId].d.status == PENDING_REFERENCE &&
      db.wagers[r.claim.transactionId].d.req.walletId == r.claim.walletId
    ensures var row := Attempted(db.wagers[r.claim.transactionId]); var w := db.wallets[r.claim.walletId];
      var reference := ReadReference(db, row.d.req, r.seesForeign);
      && RetryOutcome(row, w, r, reference, ReadReversed(db.wagers, reference)).Ok?
      && var (row', out) := RetryOutcome(row, w, r, reference, ReadReversed(db.wagers, reference)).value;
      && out.wallet.id == w.id == r.claim.walletId && RetryReference(db, r).value.0 == Post(db, row', out)
      && RetryReference(db, r).value.0.wagers == db.wagers[row'.d.req.id := row']
  {
    hide RetryOutcome;
    hide InboxClosed;
    hide KeyIndex;
    hide Placed;
  }

  lemma FailedPost(db: Db, row: WagerRow, out: Outcome, w: WalletData)
    requires w.id in db.wallets && db.wallets[w.id] == w && w.id in db.ledger && w.id in db.outbox && out.wallet == w &&
      out.entry == None
    requires |out.events| == 1
    ensures var db' := Post(db, row, out); var es := db.outbox[w.id];
      && db'.wallets == db.wallets && db'.ledger == db.ledger && db'.inbox == db.inbox
      && db'.wagers == db.wagers[row.d.req.id := row]
      && |db'.outbox[w.id]| == |es| + 1 && db'.outbox[w.id][..|es|] == es && db'.outbox[w.id][|es|] == out.events[0]
      && forall other :: other in db.outbox && other != w.id ==> db'.outbox[other] == db.outbox[other]
  {
    assert db.wallets[w.id := w] == db.wallets;
  }

  lemma OutcomeFails(row: WagerRow, w: WalletData, r: Retry, reference: Option<WagerData>, reversed: bool)
    requires row.d.status == PENDING_REFERENCE && RetryOutcome(row, w, r, reference, reversed).Ok?
    requires RetryOutcome(row, w, r, reference, reversed).value.0.d.status == FAILED
    ensures var (row', out) := RetryOutcome(row, w, r, reference, reversed).value;
      && out.wallet == w && out.entry == None
      && row'.d == Changed(row.d, ToFailed(PERMANENT_PROCESSING_FAILURE, w.balance, w.version), r.failAt)
      && |out.events| == 1 && out.events[0].WagerEvent? && out.events[0].data == row'.d
  {
    var exhausted := Exhausted(row, r);
    if Settle(w, row.d, row.trace, reference, reversed, exhausted, r.stamps).Ok? {
      SettleMeans(w, row.d, row.trace, reference, reversed, exhausted, r.stamps);
    }
  }

  // ---------- the last attempt always resolves ----------

  /** Every stored wager carries a correlation that events accept, and a waiting one the time of its next attempt. */
  ghost predicate Traced(db: Db) {
    forall id {:trigger db.wagers[id]} :: id in db.wagers ==> RowTraced(db.wagers[id])
  }

  predicate RowTraced(row: WagerRow) {
    !Blank(row.trace.correlation) && (row.d.status == PENDING_REFERENCE ==> row.nextAttemptAt.Some?)
  }

  lemma EventsTraced(d: WagerData, version: int64, entry: Option<LedgerData>, trace: Trace, st: Stamps)
    requires EventsOf(d, version, entry, trace, st).Ok?
    ensures !Blank(trace.correlation)
  {
  }

  /** A first settlement emits an event, and events refuse a blank correlation. */
  lemma SettlementTraced(w: WalletData, d: WagerData, trace: Trace, reference: Option<WagerData>, reversed: bool,
          st: Stamps)
    requires Settle(w, d, trace, reference, reversed, false, st).Ok? && d.status == PENDING
    ensures !Blank(trace.correlation)
  {
    hide EventsOf;
    hide Blank;
    hide ValidWager;
    hide Evaluate;
    hide ValidWallet;
    hide NewLedgerEntry;
    hide MoveError;
    hide Transitioned;
    hide Moved;
    forall e, v, x, t | EventsOf(e, v, x, trace, t).Ok? ensures !Blank(trace.correlation) {
      EventsTraced(e, v, x, trace, t);
    }
  }

  lemma NewTraced(db: Db, call: Call, c: Command)
    requires Shape(db) && Traced(db) && c.kind.Some? && FindIdentity(db, c) == Absent && ProcessNew(db, call, c).Ok?
    ensures Traced(ProcessNew(db, call, c).value.0)
  {
    hide Finish;
    hide Placed;
    hide InboxClosed;
    hide FindIdentity;
    hide Blank;
    hide Traced;
    var row := RowOf(call, c);
    NewIsInsertable(db, call, c);
    InsertShape(db, row);
    NewIsFinished(db, call, c);
    var inserted := Insert(db, row);
    var reference := ReadReference(inserted, row.d.req, call.seesForeign);
    FinishTraced(db, call, db.wallets[c.walletId], row, reference, ReadReversed(inserted.wagers, reference));
  }

  lemma SettlementTracedIn(db: Db, call: Call, w: WalletData, row: WagerRow, reference: Option<WagerData>,
          reversed: bool)
    requires w.id in db.ledger && w.id in db.outbox && row.d.status == PENDING &&
      Finish(db, call, w, row, reference, reversed).Ok?
    ensures !Blank(row.trace.correlation)
  {
    hide Settle;
    hide Post;
    hide CompleteInbox;
    hide Blank;
    SettlementTraced(w, row.d, row.trace, reference, reversed, call.stamps);
  }

  lemma FinishTraced(db: Db, call: Call, w: WalletData, row: WagerRow, reference: Option<WagerData>, reversed: bool)
    requires Traced(db) && w.id in db.ledger && w.id in db.outbox && row.d.status == PENDING
    requires Finish(db, call, w, row, reference, reversed).Ok?
    ensures Traced(Finish(db, call, w, row, reference, reversed).value.0)
  {
    hide Finish;
    hide Blank;
    SettlementTracedIn(db, call, w, row, reference, reversed);
    var row', out := FinishIs(db, call, w, row, reference, reversed);
  }

  lemma RetryTraced(db: Db, r: Retry)
    requires Shape(db) && Traced(db) && RetryReference(db, r).Ok?
    ensures Traced(RetryReference(db, r).value.0)
  {
    hide RetryOutcome;
    hide Blank;
    hide KeyIndex;
    hide InboxClosed;
    var row := Attempted(db.wagers[r.claim.transactionId]);
    var reference := ReadReference(db, row.d.req, r.seesForeign);
    OutcomeTrace(row, db.wallets[r.claim.walletId], r, reference, ReadReversed(db.wagers, reference));
    OutcomeReschedules(row, db.wallets[r.claim.walletId], r, reference, ReadReversed(db.wagers, reference));
  }

  lemma OutcomeTrace(row: WagerRow, w: WalletData, r: Retry, reference: Option<WagerData>, reversed: bool)
    requires RetryOutcome(row, w, r, reference, reversed).Ok?
    ensures RetryOutcome(row, w, r, reference, reversed).value.0.trace == row.trace
  {
    hide Settle;
    hide EventsOf;
    hide Transitioned;
    hide Exhausted;
    hide RetryDelay;
  }

  lemma CreateTraced(db: Db, o: Opening)
    requires Traced(db) && CreateWallet(db, o).Ok?
    ensures Traced(CreateWallet(db, o).value)
  {
    hide CreateWallet;
    hide Blank;
    var row, entries, events := CreateIs(db, o);
  }

  lemma ProcessTraced(db: Db, call: Call)
    requires Shape(db) && Traced(db) && ProcessWager(db, call).Ok?
    ensures Traced(ProcessWager(db, call).value.0)
  {
    hide FindIdentity;
    hide ProcessNew;
    hide Placed;
    hide InboxClosed;
    hide Blank;
    var c := NormalizeCommand(call.cmd).value;
    if ReserveInbox(db, call.inbox) == Reserved && FindIdentity(db, c) == Absent {
      NewTraced(db, call, c);
    }
  }

  lemma StepTraced(db: Db, op: Op)
    requires Shape(db) && Traced(db)
    ensures Traced(Step(db, op))
  {
    hide ProcessWager;
    hide RetryReference;
    hide CreateWallet;
    hide Blank;
    match op
    case OpCreate(o) => if CreateWallet(db, o).Ok? { CreateTraced(db, o); }
    case OpProcess(call) => if ProcessWager(db, call).Ok? { ProcessTraced(db, call); }
    case OpRetry(r) => if RetryReference(db, r).Ok? { RetryTraced(db, r); }
    case _ =>
  }

  lemma {:induction false} RunTraced(ops: seq<Op>)
    ensures Traced(Run(ops))
  {
    if ops != [] {
      RunTraced(ops[..|ops| - 1]);
      StepTraced(Run(ops[..|ops| - 1]), ops[|ops| - 1]);
    }
  }

  /**
   * An attempt that is the last one allowed, under a claim still held and a clock that has not gone back, commits a
   * terminal wager.
   */
  lemma LastAttemptResolves(ops: seq<Op>, r: Retry)
    requires r.maxAttempts >= 1 && r.ttl > 0
    requires Holds(Run(ops), r.claim, r.clock) && IsLast(Run(ops).wagers[r.claim.transactionId], r)
    requires r.failAt != NO_TIME && Run(ops).wagers[r.claim.transactionId].d.updatedAt <= r.failAt &&
      r.stamps.wagerEventId != NO_ID
    ensures RetryReference(Run(ops), r).Ok? &&
      RetryReference(Run(ops), r).value.0.wagers[r.claim.transactionId].d.status.Terminal()
  {
    hide Run;
    hide AllGood;
    hide Holds;
    hide IsLast;
    hide RetryReference;
    RunTraced(ops);
    LastAttempt(Run(ops), r);
  }

  lemma LastAttempt(db: Db, r: Retry)
    requires Inv(db) && Traced(db) && r.maxAttempts >= 1 && r.ttl > 0
    requires Holds(db, r.claim, r.clock) && IsLast(db.wagers[r.claim.transactionId], r)
    requires r.failAt != NO_TIME && db.wagers[r.claim.transactionId].d.updatedAt <= r.failAt &&
      r.stamps.wagerEventId != NO_ID
    ensures RetryReference(db, r).Ok? && RetryReference(db, r).value.0.wagers[r.claim.transactionId].d.status.Terminal()
  {
    hide RetryOutcome;
    hide AllGood;
    hide InboxClosed;
    hide KeyIndex;
    hide ValidWager;
    hide ValidWallet;
    hide Blank;
    var id := r.claim.transactionId;
    var row := Attempted(db.wagers[id]);
    var wid := r.claim.walletId;
    var reference := ReadReference(db, row.d.req, r.seesForeign);
    WaitingIsValid(db, id);
    ExhaustedOutcome(row, db.wallets[wid], r, reference, ReadReversed(db.wagers, reference));
    OutcomeProgress(row, db.wallets[wid], r, reference, ReadReversed(db.wagers, reference));
  }

  lemma WaitingIsValid(db: Db, id: Id)
    requires Inv(db) && id in db.wagers
    ensures ValidWager(db.wagers[id].d) && ValidWallet(db.wallets[db.wagers[id].d.req.walletId])
  {
    var a := AccountOf(db, db.wagers[id].d.req.walletId);
    GoodAccount(db, a.wallet.id);
    assert id in a.wagers && a.wagers[id].d == db.wagers[id].d;
  }

  lemma ExhaustedOutcome(row: WagerRow, w: WalletData, r: Retry, reference: Option<WagerData>, reversed: bool)
    requires ValidWager(row.d) && row.d.status == PENDING_REFERENCE && ValidWallet(w) && Exhausted(row, r) &&
      !Blank(row.trace.correlation)
    requires r.failAt != NO_TIME && row.d.updatedAt <= r.failAt && r.stamps.wagerEventId != NO_ID
    ensures RetryOutcome(row, w, r, reference, reversed).Ok? &&
      RetryOutcome(row, w, r, reference, reversed).value.1.wallet.id == w.id
  {
    match Settle(w, row.d, row.trace, reference, reversed, true, r.stamps)
    case Ok(out) =>
      SettleMeans(w, row.d, row.trace, reference, reversed, true, r.stamps);
    case Fail(_) =>
      assert CanChange(row.d, ToFailed(PERMANENT_PROCESSING_FAILURE, w.balance, w.version), r.failAt);
  }

  // ---------- over a run ----------

  /** How many retries of this wager the run has committed. */
  ghost function Committed(ops: seq<Op>, id: Id): nat {
    if ops == [] then 0
    else
      var front, op := ops[..|ops| - 1], ops[|ops| - 1];
      Committed(front, id) + if CountsRetry(Run(front), op, id) then 1 else 0
  }

  ghost predicate LimitedBy(ops: seq<Op>, m: nat) {
    forall i :: 0 <= i < |ops| && ops[i].OpRetry? ==> ops[i].r.maxAttempts <= m
  }

  /** The attempt counter of a row changes in a retry of that row only. */
  lemma StepAttempts(db: Db, op: Op, id: Id)
    requires Inv(db)
    ensures var retried := op.OpRetry? && op.r.claim.transactionId == id && RetryReference(db, op.r).Ok?;
      var db' := Step(db, op);
      && (retried ==> id in db.wagers && id in db'.wagers && db'.wagers[id].attempts == db.wagers[id].attempts + 1)
      && (!retried && id in db.wagers ==>
          && id in db'.wagers && db'.wagers[id].attempts == db.wagers[id].attempts
          && db'.wagers[id].d == db.wagers[id].d)
      && (!retried && id !in db.wagers && id in db'.wagers ==> db'.wagers[id].attempts == 0)
  {
    hide AllGood;
    hide Placed;
    hide KeyIndex;
    hide ExternalIndex;
    hide InboxClosed;
    hide ProcessWager;
    hide RetryReference;
    hide CreateWallet;
    hide Claimable;
    match op
    case OpCreate(o) => if CreateWallet(db, o).Ok? { CreateAttempts(db, o, id); }
    case OpProcess(call) => if ProcessWager(db, call).Ok? { ProcessAttempts(db, call, id); }
    case OpRetry(r) => if RetryReference(db, r).Ok? { RetryProgress(db, r); RetryAddsNoRow(db, r); }
    case _ =>
  }

  lemma RetryAddsNoRow(db: Db, r: Retry)
    requires Shape(db) && RetryReference(db, r).Ok?
    ensures RetryReference(db, r).value.0.wagers.Keys == db.wagers.Keys
  {
    hide RetryOutcome;
    var row := Attempted(db.wagers[r.claim.transactionId]);
    var reference := ReadReference(db, row.d.req, r.seesForeign);
    RetryRow(row, db.wallets[r.claim.walletId], r, reference, ReadReversed(db.wagers, reference));
  }

  lemma CreateAttempts(db: Db, o: Opening, id: Id)
    requires CreateWallet(db, o).Ok?
    ensures var db' := CreateWallet(db, o).value;
      if id in db.wagers then id in db'.wagers && db'.wagers[id] == db.wagers[id] else id in db'.wagers ==>
        db'.wagers[id].attempts == 0
  {
    hide CreateWallet;
    var row, entries, events := CreateIs(db, o);
  }

  lemma ProcessAttempts(db: Db, call: Call, id: Id)
    requires Shape(db) && ProcessWager(db, call).Ok?
    ensures var db' := ProcessWager(db, call).value.0;
      if id in db.wagers then id in db'.wagers && db'.wagers[id] == db.wagers[id] else id in db'.wagers ==>
        db'.wagers[id].attempts == 0
  {
    hide FindIdentity;
    hide ProcessNew;
    hide Placed;
    hide InboxClosed;
    var c := NormalizeCommand(call.cmd).value;
    if ReserveInbox(db, call.inbox) == Reserved && FindIdentity(db, c) == Absent {
      NewAttempts(db, call, c, id);
    }
  }

  lemma NewAttempts(db: Db, call: Call, c: Command, id: Id)
    requires Shape(db) && c.kind.Some? && FindIdentity(db, c) == Absent && ProcessNew(db, call, c).Ok?
    ensures var db' := ProcessNew(db, call, c).value.0;
      if id in db.wagers then id in db'.wagers && db'.wagers[id] == db.wagers[id] else id in db'.wagers ==>
        db'.wagers[id].attempts == 0
  {
    hide Finish;
    hide Placed;
    hide InboxClosed;
    hide FindIdentity;
    var row := RowOf(call, c);
    NewIsInsertable(db, call, c);
    InsertShape(db, row);
    NewIsFinished(db, call, c);
    var inserted := Insert(db, row);
    var reference := ReadReference(inserted, row.d.req, call.seesForeign);
    FinishAttempts(db, call, db.wallets[c.walletId], row, reference, ReadReversed(inserted.wagers, reference), id);
  }

  lemma FinishAttempts(db: Db, call: Call, w: WalletData, row: WagerRow, reference: Option<WagerData>, reversed: bool,
          id: Id)
    requires w.id in db.ledger && w.id in db.outbox && row.d.req.id !in db.wagers && row.attempts == 0
    requires Finish(db, call, w, row, reference, reversed).Ok?
    ensures var db' := Finish(db, call, w, row, reference, reversed).value.0;
      if id in db.wagers then id in db'.wagers && db'.wagers[id] == db.wagers[id] else id in db'.wagers ==>
        db'.wagers[id].attempts == 0
  {
    hide Finish;
    var row', out := FinishIs(db, call, w, row, reference, reversed);
  }

  /** The counter of a wager, against the limit. */
  predicate Counted(db: Db, id: Id, n: nat, m: nat) {
    && n <= m
    && (if id in db.wagers then db.wagers[id].attempts == n && (db.wagers[id].d.status == PENDING_REFERENCE ==> n < m)
      else n == 0)
  }

  predicate CountsRetry(db: Db, op: Op, id: Id)
    requires Shape(db)
  {
    op.OpRetry? && op.r.claim.transactionId == id && RetryReference(db, op.r).Ok?
  }

  lemma CountStep(db: Db, op: Op, id: Id, n: nat, m: nat)
    requires Inv(db) && Counted(db, id, n, m) && m >= 1 && (op.OpRetry? ==> op.r.maxAttempts <= m)
    ensures Counted(Step(db, op), id, if CountsRetry(db, op, id) then n + 1 else n, m)
  {
    hide AllGood;
    hide ProcessWager;
    hide CreateWallet;
    hide RetryReference;
    hide Placed;
    hide KeyIndex;
    hide ExternalIndex;
    hide InboxClosed;
    StepAttempts(db, op, id);
    if CountsRetry(db, op, id) {
      RetryProgress(db, op.r);
    }
  }

  /**
   * Under a fixed limit m, the counter of a wager is the number of its committed retries; there are at most m
   * of them in any run, however long, and fewer than m while it still waits.
   */
  lemma {:induction false} RetriesAreBounded(ops: seq<Op>, m: nat, id: Id)
    requires LimitedBy(ops, m) && m >= 1
    ensures Counted(Run(ops), id, Committed(ops, id), m)
    decreases |ops|
  {
    if ops != [] {
      RunUnfolds(ops);
      hide Run;
      hide Inv;
      hide Step;
      hide Counted;
      hide RetryReference;
      var front, op := ops[..|ops| - 1], ops[|ops| - 1];
      assert LimitedBy(front, m);
      RetriesAreBounded(front, m, id);
      CountStep(Run(front), op, id, Committed(front, id), m);
    }
  }
}
