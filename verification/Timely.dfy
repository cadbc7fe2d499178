/** Claims of waiting wagers against the server's clock, in every interleaved run (work.go, engine.go, config.go). */
module Timely {
  import opened Prelude
  import opened Wager
  import opened Tables
  import opened Reachable
  import opened Runs
  import opened Leases
  import opened Interleaving
  import opened Commits
  import opened Concurrency
  import opened Guarantees
  import Config
  import Delivery

  // ---------- claims run as long as they were issued for ----------

  predicate ClaimIssued(row: WagerRow, taken: map<Id, Issue>) {
    row.claim.Some? ==>
      && row.claim.value.token in taken && taken[row.claim.value.token].lease > 0
      && row.claim.value.until == taken[row.claim.value.token].at + Millis(taken[row.claim.value.token].lease)
  }

  ghost predicate Issued(s: Sys) {
    forall id {:trigger s.db.wagers[id]} :: id in s.db.wagers ==> ClaimIssued(s.db.wagers[id], s.taken)
  }

  /** Tokens are issued once. */
  lemma TokensStay(s: Sys, a: Action)
    requires Safe(s)
    ensures forall t :: t in s.taken ==> t in Next(s, a).taken && Next(s, a).taken[t] == s.taken[t]
  {
    hide AllGood;
    hide AllFit;
    hide AllApart;
    hide TxFits;
    hide Run;
    hide Step;
    hide Effects;
    hide NextPhase;
    hide Blocked;
    hide NormalizeCommand;
    hide Serial;
  }

  lemma LeftIsIssued(s: Sys, a: Action, op: Op, id: Id, row: WagerRow, taken: map<Id, Issue>)
    requires IsOf(s, a, op) && Leaves(s.db.wagers, op, id, row) &&
      (id in s.db.wagers ==> ClaimIssued(s.db.wagers[id], s.taken))
    requires forall t :: t in s.taken ==> t in taken && taken[t] == s.taken[t]
    requires a.ClaimWaiting? ==> a.token in taken && taken[a.token] == Issue(s.clock, a.lease)
    ensures ClaimIssued(row, taken)
  {
    hide Deferred;
  }

  /** A claim that reaches the tables is recorded as issued. */
  lemma ClaimIsRecorded(s: Sys, a: Action)
    requires Safe(s) && a.ClaimWaiting? && Next(s, a).history != s.history
    ensures a.token in Next(s, a).taken && Next(s, a).taken[a.token] == Issue(s.clock, a.lease)
  {
    hide AllGood;
    hide AllFit;
    hide AllApart;
    hide Run;
    hide Step;
  }

  lemma NextIssued(s: Sys, a: Action)
    requires Safe(s) && Issued(s)
    ensures Issued(Next(s, a))
  {
    hide Next;
    hide AllGood;
    hide AllFit;
    hide AllApart;
    hide Step;
    hide Leaves;
    hide ClaimIssued;
    hide IsOf;
    hide Run;
    var s' := Next(s, a);
    HistoryIsCommitOrder(s, a);
    TokensStay(s, a);
    if a.ClaimWaiting? && s'.history != s.history { ClaimIsRecorded(s, a); }
    forall id | id in s'.db.wagers ensures ClaimIssued(s'.db.wagers[id], s'.taken) {
      if |s'.history| == |s.history| + 1 {
        var op := s'.history[|s.history|];
        StepLeaves(s.db, op, id);
        LeftIsIssued(s, a, op, id, s'.db.wagers[id], s'.taken);
      } else {
        StillIssued(s.db.wagers[id], s.taken, s'.taken);
      }
    }
  }

  lemma StillIssued(row: WagerRow, taken: map<Id, Issue>, taken': map<Id, Issue>)
    requires ClaimIssued(row, taken) && forall t :: t in taken ==> t in taken' && taken'[t] == taken[t]
    ensures ClaimIssued(row, taken')
  {
  }

  lemma {:induction false} ExecuteIssued(acts: seq<Action>)
    ensures Issued(Execute(acts))
  {
    if acts != [] {
      ExecuteUnfolds(acts);
      hide Execute;
      hide Safe;
      hide Next;
      hide Issued;
      ExecuteIssued(acts[..|acts| - 1]);
      NextIssued(Execute(acts[..|acts| - 1]), acts[|acts| - 1]);
    }
  }

  // ---------- a retry ends within its claim ----------

  /** The worker commits within the claim call and the processing deadline, counted from the issue of its token. */
  predicate OnTime(s: Sys, tid: nat, c: Config.Config)
    requires tid in s.txs && s.txs[tid].job.Resolve?
  {
    var token := s.txs[tid].job.claim.token;
    token in s.taken ==>
      s.taken[token].lease == c.lease && s.clock <= s.taken[token].at + Delivery.CLAIM_CALL + c.process
  }

  lemma JudgedHoldsClaim(s: Sys, tid: nat)
    requires Safe(s) && tid in s.txs && s.txs[tid].job.Resolve? && Committing(s.txs[tid])
    ensures var claim := s.txs[tid].job.claim;
      && claim.transactionId in s.db.wagers
      && s.db.wagers[claim.transactionId].claim.Some?
      && s.db.wagers[claim.transactionId].claim.value.token == claim.token
  {
    hide Inv;
    hide AllApart;
    hide Run;
    hide NormalizeCommand;
    hide ReferenceSeen;
    hide Reversed;
    assert TxFits(s.db, s.txs[tid]);
  }

  /**
   * Under an accepted configuration a reference retry that commits on time still holds its claim, and the claim has not
   * expired: no other worker can have taken the wager meanwhile.
   */
  lemma RetryWithinClaim(acts: seq<Action>, tid: nat, c: Config.Config)
    requires Config.Accepts(c) && tid in Execute(acts).txs && Execute(acts).txs[tid].job.Resolve?
    requires Committing(Execute(acts).txs[tid]) && OnTime(Execute(acts), tid, c)
    ensures var s := Execute(acts); var claim := s.txs[tid].job.claim;
      && claim.transactionId in s.db.wagers && Claimed(s.db.wagers[claim.transactionId], claim, s.clock)
      && !Claimable(s.db.wagers[claim.transactionId], s.clock)
  {
    hide Execute;
    hide Inv;
    hide AllApart;
    hide Run;
    hide NormalizeCommand;
    hide ReferenceSeen;
    hide Reversed;
    var s := Execute(acts);
    assert TxFits(s.db, s.txs[tid]);
    JudgedHoldsClaim(s, tid);
    ExecuteIssued(acts);
    Config.AcceptedIsExact(c);
    assert ClaimIssued(s.db.wagers[s.txs[tid].job.claim.transactionId], s.taken);
  }

  // ---------- nothing waits for ever ----------

  ghost predicate Modest(acts: seq<Action>, longest: nat) {
    forall i :: 0 <= i < |acts| && acts[i].ClaimWaiting? ==> acts[i].lease <= longest
  }

  lemma LaterReading(ops: seq<Op>, clock: Time, clock': Time, longest: nat)
    requires AllReadBy(ops, clock, longest) && clock <= clock'
    ensures AllReadBy(ops, clock', longest)
  {
    forall i | 0 <= i < |ops| ensures ReadBy(ops[i], clock', longest) {
      assert ReadBy(ops[i], clock, longest);
    }
  }

  lemma ClockGoesOn(s: Sys, a: Action)
    requires Safe(s)
    ensures s.clock <= Next(s, a).clock
  {
    hide AllGood;
    hide AllFit;
    hide AllApart;
    hide TxFits;
    hide Run;
    hide Step;
    hide Effects;
    hide NextPhase;
    hide Blocked;
    hide NormalizeCommand;
    hide Serial;
  }

  lemma AppendedReadBy(s: Sys, a: Action, op: Op, clock: Time, longest: nat)
    requires IsOf(s, a, op) && s.clock <= clock && (a.ClaimWaiting? ==> a.lease <= longest)
    ensures ReadBy(op, clock, longest)
  {
  }

  lemma NextIsReadBy(s: Sys, a: Action, longest: nat)
    requires Safe(s) && AllReadBy(s.history, s.clock, longest) && (a.ClaimWaiting? ==> a.lease <= longest)
    ensures AllReadBy(Next(s, a).history, Next(s, a).clock, longest)
  {
    hide Next;
    hide Inv;
    hide AllFit;
    hide AllApart;
    hide Run;
    hide Step;
    hide IsOf;
    hide ReadBy;
    var s' := Next(s, a);
    HistoryIsCommitOrder(s, a);
    ClockGoesOn(s, a);
    LaterReading(s.history, s.clock, s'.clock, longest);
    forall i | 0 <= i < |s'.history| ensures ReadBy(s'.history[i], s'.clock, longest) {
      if i < |s.history| {
        assert s'.history[i] == s.history[i];
      } else {
        AppendedReadBy(s, a, s'.history[i], s'.clock, longest);
      }
    }
  }

  /** Every transaction of the history read the server's clock by now. */
  lemma {:induction false} HistoryIsReadBy(acts: seq<Action>, longest: nat)
    requires Modest(acts, longest)
    ensures AllReadBy(Execute(acts).history, Execute(acts).clock, longest)
  {
    if acts != [] {
      var front, a := acts[..|acts| - 1], acts[|acts| - 1];
      ExecuteUnfolds(acts);
      hide Execute;
      hide Safe;
      hide Next;
      assert Modest(front, longest);
      HistoryIsReadBy(front, longest);
      NextIsReadBy(Execute(front), a, longest);
    }
  }

  /**
   * However workers claimed it and crashed, a waiting wager can be claimed again once the longest delay and lease have
   * passed.
   */
  lemma WaitingComesBack(acts: seq<Action>, longest: nat, id: Id, d: nat)
    requires Modest(acts, longest) && id in Execute(acts).db.wagers &&
      Execute(acts).db.wagers[id].d.status == PENDING_REFERENCE
    requires d >= HOUR && d > longest
    ensures var s := Next(Execute(acts), Tick(d)); id in s.db.wagers && Claimable(s.db.wagers[id], s.clock)
  {
    hide Execute;
    hide Inv;
    hide AllFit;
    hide AllApart;
    hide Run;
    var s := Execute(acts);
    HistoryIsReadBy(acts, longest);
    WaitingIsClaimable(s.history, s.clock, longest, id, s.clock + d);
  }
}
