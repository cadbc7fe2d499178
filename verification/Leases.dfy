/** When waiting wagers are due, and how long their claims last (internal/adapters/postgres/work.go, process.go). */
module Leases {
  import opened Prelude
  import opened Wallet
  import opened Wager
  import opened Tables
  import opened Reachable
  import opened Runs
  import opened Growth
  import opened Retries

  /**
   * How a transaction may leave a row: as it was, claimed, released, or written back without a claim and rescheduled.
   */
  predicate Leaves(before: map<Id, WagerRow>, op: Op, id: Id, row: WagerRow) {
    || (id in before && row == before[id])
    || (op.OpClaim? && op.id == id && id in before && row == before[id].(claim := Some(op.claim)))
    || (op.OpRelease? && id in before && row == before[id].(claim := None))
    || (op.OpCreate? && row.claim == None && row.d.status == PROCESSED)
    || (op.OpProcess? && row.claim == None && Deferred(row, op.call.stamps.dbNow, SECOND))
    || (op.OpRetry? && row.claim == None && row.attempts >= 1 &&
      Deferred(row, op.r.stamps.dbNow, RetryDelay(row.attempts)))
  }

  /** A wager that waits is due again after this delay. */
  predicate Deferred(row: WagerRow, dbNow: Time, delay: Time) {
    row.d.status == PENDING_REFERENCE ==> row.nextAttemptAt == Some(dbNow + delay)
  }

  lemma FinishLeaves(db: Db, call: Call, w: WalletData, row: WagerRow, reference: Option<WagerData>, reversed: bool,
          id: Id)
    requires w.id in db.ledger && w.id in db.outbox && Finish(db, call, w, row, reference, reversed).Ok?
    requires id in Finish(db, call, w, row, reference, reversed).value.0.wagers
    ensures Leaves(db.wagers, OpProcess(call), id, Finish(db, call, w, row, reference, reversed).value.0.wagers[id])
  {
    hide Finish;
    var row', out := FinishIs(db, call, w, row, reference, reversed);
  }

  lemma NewLeaves(db: Db, call: Call, c: Command, id: Id)
    requires Shape(db) && c.kind.Some? && FindIdentity(db, c) == Absent && ProcessNew(db, call, c).Ok?
    requires id in ProcessNew(db, call, c).value.0.wagers
    ensures Leaves(db.wagers, OpProcess(call), id, ProcessNew(db, call, c).value.0.wagers[id])
  {
    hide Finish;
    hide Placed;
    hide InboxClosed;
    hide FindIdentity;
    hide Leaves;
    var row := RowOf(call, c);
    NewIsInsertable(db, call, c);
    InsertShape(db, row);
    NewIsFinished(db, call, c);
    var inserted := Insert(db, row);
    var reference := ReadReference(inserted, row.d.req, call.seesForeign);
    FinishLeaves(db, call, db.wallets[c.walletId], row, reference, ReadReversed(inserted.wagers, reference), id);
  }

  lemma ProcessLeaves(db: Db, call: Call, id: Id)
    requires Shape(db) && ProcessWager(db, call).Ok? && id in ProcessWager(db, call).value.0.wagers
    ensures Leaves(db.wagers, OpProcess(call), id, ProcessWager(db, call).value.0.wagers[id])
  {
    hide FindIdentity;
    hide ProcessNew;
    hide Placed;
    hide InboxClosed;
    var c := NormalizeCommand(call.cmd).value;
    if ReserveInbox(db, call.inbox) == Reserved && FindIdentity(db, c) == Absent {
      NewLeaves(db, call, c, id);
    }
  }

  lemma RetryLeaves(db: Db, r: Retry, id: Id)
    requires Shape(db) && RetryReference(db, r).Ok? && id in RetryReference(db, r).value.0.wagers
    ensures Leaves(db.wagers, OpRetry(r), id, RetryReference(db, r).value.0.wagers[id])
  {
    hide RetryReference;
    hide RetryDelay;
    hide KeyIndex;
    hide ExternalIndex;
    hide InboxClosed;
    RetryAddsNoRow(db, r);
    RetryProgress(db, r);
    var row := RetryReference(db, r).value.0.wagers[r.claim.transactionId];
    if row.d.status == PENDING_REFERENCE {
      RetryIsRescheduled(db, r);
      DelayBounds(row.attempts);
    }
  }

  lemma CreateLeaves(db: Db, o: Opening, id: Id)
    requires CreateWallet(db, o).Ok? && id in CreateWallet(db, o).value.wagers
    ensures Leaves(db.wagers, OpCreate(o), id, CreateWallet(db, o).value.wagers[id])
  {
    hide CreateWallet;
    var row, entries, events := CreateIs(db, o);
  }

  lemma StepLeaves(db: Db, op: Op, id: Id)
    requires Shape(db) && id in Step(db, op).wagers
    ensures Leaves(db.wagers, op, id, Step(db, op).wagers[id])
  {
    hide ProcessWager;
    hide RetryReference;
    hide CreateWallet;
    hide Claimable;
    hide Deferred;
    hide Placed;
    hide KeyIndex;
    hide ExternalIndex;
    hide InboxClosed;
    match op
    case OpCreate(o) => if CreateWallet(db, o).Ok? { CreateLeaves(db, o, id); }
    case OpProcess(call) => if ProcessWager(db, call).Ok? { ProcessLeaves(db, call, id); }
    case OpRetry(r) => if RetryReference(db, r).Ok? { RetryLeaves(db, r, id); }
    case _ =>
  }

  // ---------- nothing waits for ever ----------

  /** The transaction read the server's clock at `clock` at the latest, and claimed for `longest` at most. */
  predicate ReadBy(op: Op, clock: Time, longest: nat) {
    match op
    case OpProcess(call) => call.stamps.dbNow <= clock
    case OpRetry(r) => r.stamps.dbNow <= clock
    case OpClaim(_, claim, at) => at <= clock && claim.until <= at + longest
    case _ => true
  }

  ghost predicate AllReadBy(ops: seq<Op>, clock: Time, longest: nat) {
    forall i :: 0 <= i < |ops| ==> ReadBy(ops[i], clock, longest)
  }

  predicate DueBy(row: WagerRow, clock: Time, longest: nat) {
    && (row.d.status == PENDING_REFERENCE ==> row.nextAttemptAt.Some? && row.nextAttemptAt.value <= clock + HOUR)
    && (row.claim.Some? ==> row.claim.value.until <= clock + longest)
  }

  lemma LeftIsDue(before: map<Id, WagerRow>, op: Op, id: Id, row: WagerRow, clock: Time, longest: nat)
    requires Leaves(before, op, id, row) && ReadBy(op, clock, longest) &&
      (id in before ==> DueBy(before[id], clock, longest))
    ensures DueBy(row, clock, longest)
  {
    hide RetryDelay;
    if row.attempts >= 1 { DelayBounds(row.attempts); }
  }

  lemma {:induction false} RowsAreDue(ops: seq<Op>, clock: Time, longest: nat, id: Id)
    requires AllReadBy(ops, clock, longest) && id in Run(ops).wagers
    ensures DueBy(Run(ops).wagers[id], clock, longest)
    decreases |ops|
  {
    if ops != [] {
      var front, op := ops[..|ops| - 1], ops[|ops| - 1];
      RunUnfolds(ops);
      hide Run;
      hide AllGood;
      hide Step;
      hide Leaves;
      hide DueBy;
      hide ReadBy;
      hide Placed;
      hide KeyIndex;
      hide ExternalIndex;
      hide InboxClosed;
      assert AllReadBy(front, clock, longest);
      if id in Run(front).wagers { RowsAreDue(front, clock, longest, id); }
      StepLeaves(Run(front), op, id);
      LeftIsDue(Run(front).wagers, op, id, Run(ops).wagers[id], clock, longest);
    }
  }

  /**
   * No waiting wager is stuck, whatever workers held it and crashed: once the longest delay and the longest lease have
   * passed since the last clock reading of the run, it can be claimed.
   */
  lemma WaitingIsClaimable(ops: seq<Op>, clock: Time, longest: nat, id: Id, later: Time)
    requires AllReadBy(ops, clock, longest) && id in Run(ops).wagers &&
      Run(ops).wagers[id].d.status == PENDING_REFERENCE
    requires later >= clock + HOUR && later > clock + longest
    ensures Claimable(Run(ops).wagers[id], later)
  {
    hide Run;
    hide AllGood;
    RowsAreDue(ops, clock, longest, id);
  }
}
