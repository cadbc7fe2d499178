/** Which events a run has committed (internal/adapters/postgres/process.go, events.go). */
module Accounting {
  import opened Prelude
  import opened Wager
  import opened Tables
  import opened Accounts
  import opened Emission
  import opened Reachable
  import opened Runs
  import opened Growth
  import opened Retries

  ghost predicate WaitsAfter(ops: seq<Op>, id: Id) {
    id in Run(ops).wagers && Run(ops).wagers[id].d.status == PENDING_REFERENCE
  }

  /** At some point of the run the wager was committed as waiting. */
  ghost predicate WasWaiting(ops: seq<Op>, id: Id) {
    exists k :: 0 <= k <= |ops| && WaitsAfter(ops[..k], id)
  }

  lemma WasWaitingStep(ops: seq<Op>, id: Id)
    requires ops != []
    ensures WasWaiting(ops, id) <==> WasWaiting(ops[..|ops| - 1], id) || WaitsAfter(ops, id)
  {
    hide WaitsAfter;
    var front := ops[..|ops| - 1];
    if WasWaiting(ops, id) {
      var k :| 0 <= k <= |ops| && WaitsAfter(ops[..k], id);
      if k == |ops| { assert ops[..k] == ops; } else { assert front[..k] == ops[..k]; }
    }
    if WasWaiting(front, id) {
      var k :| 0 <= k <= |front| && WaitsAfter(front[..k], id);
      assert ops[..k] == front[..k];
    }
    if WaitsAfter(ops, id) { assert ops[..|ops|] == ops; }
  }

  lemma WasWaitingIsStored(ops: seq<Op>, id: Id)
    requires WasWaiting(ops, id)
    ensures id in Run(ops).wagers
  {
    hide Run;
    hide Inv;
    hide RowGrows;
    var k :| 0 <= k <= |ops| && WaitsAfter(ops[..k], id);
    assert ops == ops[..k] + ops[k..];
    RunGrows(ops[..k], ops[k..]);
  }

  /** One transaction: who has waited stays so, and who newly waits has. */
  lemma StepWaited(db: Db, op: Op, id: Id)
    requires Inv(db) && id in Step(db, op).wagers
    ensures EverWaited(StandingOf(Step(db, op).wagers[id])) <==>
      (id in db.wagers && EverWaited(StandingOf(db.wagers[id]))) ||
        Step(db, op).wagers[id].d.status == PENDING_REFERENCE
  {
    hide Step;
    hide AllGood;
    hide RetryReference;
    hide Placed;
    hide KeyIndex;
    hide ExternalIndex;
    hide InboxClosed;
    StepAttempts(db, op, id);
    if op.OpRetry? && op.r.claim.transactionId == id && RetryReference(db, op.r).Ok? {
      RetryProgress(db, op.r);
    }
  }

  /** Status and attempt counter tell whether the wager ever waited. */
  lemma {:induction false} CounterTellsWaiting(ops: seq<Op>, id: Id)
    requires id in Run(ops).wagers
    ensures EverWaited(StandingOf(Run(ops).wagers[id])) <==> WasWaiting(ops, id)
    decreases |ops|
  {
    if ops != [] {
      var front, op := ops[..|ops| - 1], ops[|ops| - 1];
      RunUnfolds(ops);
      hide Run;
      hide AllGood;
      hide Step;
      hide WasWaiting;
      hide Placed;
      hide KeyIndex;
      hide ExternalIndex;
      hide InboxClosed;
      hide EverWaited;
      WasWaitingStep(ops, id);
      StepWaited(Run(front), op, id);
      if id in Run(front).wagers {
        CounterTellsWaiting(front, id);
      } else if WasWaiting(front, id) {
        WasWaitingIsStored(front, id);
      }
    }
  }

  /**
   * After any run the outbox of a wallet holds, for each of its wagers, one terminal event exactly if the wager is
   * terminal, one waiting event exactly if it was ever committed as waiting, however often it was retried, and
   * one balance event for each ledger entry, in ledger order.
   */
  lemma EventAccounting(ops: seq<Op>, id: Id)
    requires id in Run(ops).wagers
    ensures var db := Run(ops); var wid := db.wagers[id].d.req.walletId; var es := db.outbox[wid];
      && Count(es, id, true) == (if db.wagers[id].d.status.Terminal() then 1 else 0)
      && Count(es, id, false) == (if WasWaiting(ops, id) then 1 else 0)
      && |Changes(es)| == |db.ledger[wid]|
      && (forall i :: 0 <= i < |Changes(es)| ==> Changes(es)[i].entry == db.ledger[wid][i])
  {
    hide Run;
    hide WasWaiting;
    hide Sound;
    hide EverWaited;
    hide Count;
    hide Changes;
    var db := Run(ops);
    var a := AccountOf(db, db.wagers[id].d.req.walletId);
    GoodAccount(db, db.wagers[id].d.req.walletId);
    CounterTellsWaiting(ops, id);
    assert a.wagers[id] == StandingOf(db.wagers[id]);
    assert Count(a.events, id, true) == Due(a.wagers, id, true) &&
      Count(a.events, id, false) == Due(a.wagers, id, false);
  }
}
