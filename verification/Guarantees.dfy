/** What callers, the queue and operators may rely on in every interleaved run. */
module Guarantees {
  import opened Prelude
  import opened Wager
  import opened Settlement
  import opened Tables
  import opened Reachable
  import opened Runs
  import opened Growth
  import opened Frozen
  import opened Interleaving
  import opened Statements
  import opened Commits
  import opened Concurrency

  // ---------- the history ----------

  /** The transaction that an action commits: the job's own command or claim, or the single statement itself. */
  predicate IsOf(s: Sys, a: Action, op: Op) {
    match a
    case Commit(tid, _, _, _, _) =>
      && tid in s.txs
      && (match s.txs[tid].job
          case Submit(raw, _, inbox) =>
            op.OpProcess? && op.call.cmd == raw && op.call.inbox == inbox && op.call.stamps.dbNow == s.clock
          case Resolve(claim, max, ttl) =>
            op.OpRetry? && op.r.claim == claim && op.r.maxAttempts == max && op.r.ttl == ttl &&
              op.r.stamps.dbNow == s.clock)
    case Create(o) => op == OpCreate(o)
    case ClaimWaiting(_, _, _, lease) => lease > 0 && op == ClaimOf(s, a)
    case ReleaseWaiting(id, owner) => op == OpRelease(id, owner)
    case _ => false
  }

  /**
   * The history is only ever extended, by the transaction that the step commits; the tables change in no other way,
   * and a commit that reached the tables is in it whether or not its answer arrived.
   */
  lemma HistoryIsCommitOrder(s: Sys, a: Action)
    requires Safe(s)
    ensures var s' := Next(s, a);
      && s.history <= s'.history && |s'.history| <= |s.history| + 1
      && (s'.history == s.history ==> s'.db == s.db)
      && (|s'.history| == |s.history| + 1 ==>
        IsOf(s, a, s'.history[|s.history|]) && s'.db == Step(s.db, s'.history[|s.history|]))
      && (a.Commit? && a.tid in s.txs && Committing(s.txs[a.tid]) && !s'.txs[a.tid].phase.Failed? ==>
        |s'.history| == |s.history| + 1)
  {
    hide AllGood;
    hide AllApart;
    hide TxFits;
    hide Run;
    hide Step;
    hide Effects;
    hide NextPhase;
    hide Blocked;
    hide NormalizeCommand;
    hide Placed;
    hide KeyIndex;
    hide ExternalIndex;
    hide InboxClosed;
    if a.Commit? && a.tid in s.txs && Committing(s.txs[a.tid]) {
      var st := AtServer(s, a.stamps);
      assert TxFits(s.db, s.txs[a.tid]);
      RunIsStored(s.history);
      if Effects(s.db, s.txs[a.tid], st, a.since, a.failAt).Ok? {
        EffectsAreSerial(s.db, s.txs[a.tid], st, a.since, a.failAt);
      }
    }
  }

  // ---------- answers ----------

  /**
   * A committed transaction leaves the tables that it would leave run alone at that moment, and answers as it would
   * then, with one exception: a replay answers with the wager and the wallet that it has read, and that is the answer
   * of this moment exactly when the wager was terminal or both are still as they were. A replay that came upon the
   * wager under the wallet's lock is no exception.
   */
  lemma AnswersAreSerial(s: Sys, a: Action, reply: Reply)
    requires Safe(s) && a.Commit? && a.tid in s.txs && Committing(s.txs[a.tid])
    requires Next(s, a).txs[a.tid].phase == Answered(reply)
    ensures var tx, st := s.txs[a.tid], AtServer(s, a.stamps);
      && (tx.job.Submit? ==>
            && ProcessWager(s.db, CallOf(tx, st)).Ok? && ProcessWager(s.db, CallOf(tx, st)).value.0 == Next(s, a).db
            && (tx.phase.Closing? ==> tx.phase.d.req.id in s.db.wagers && tx.phase.d.req.walletId in s.db.wallets)
            && (ProcessWager(s.db, CallOf(tx, st)).value.1 == reply <==>
                  (tx.phase.Closing? ==> AnswerStands(s.db, tx.phase.d, tx.phase.seen)))
            && (ProcessWager(s.db, CallOf(tx, st)).value.1 != reply ==> tx.phase.Closing? && tx.phase.locked == None))
      && (tx.job.Resolve? ==> RetryReference(s.db, RetryOf(tx, st, a.since, a.failAt)) == Ok((Next(s, a).db, reply)))
  {
    hide AllGood;
    hide AllApart;
    hide TxFits;
    hide Run;
    hide ProcessWager;
    hide RetryReference;
    hide Finish;
    hide FinishRetry;
    hide CompleteInbox;
    hide Stored;
    hide AnswerStands;
    hide Placed;
    hide KeyIndex;
    hide ExternalIndex;
    hide InboxClosed;
    var tx, st := s.txs[a.tid], AtServer(s, a.stamps);
    assert TxFits(s.db, tx);
    if tx.phase.Closing? {
      RunIsStored(s.history);
      ReplayIsSerial(s.db, tx, st);
    } else if tx.job.Submit? {
      SubmitIsSerial(s.db, tx, st);
    } else {
      RetryIsSerial(s.db, tx, st, a.since, a.failAt);
    }
  }

  lemma RecalledReads(db: Db, tx: Tx, id: Id, at: Time, clock: Time)
    requires Shape(db) && TxFits(db, tx) && tx.phase.Recalled?
    ensures tx.job.Submit? && tx.phase.d.req.walletId in db.wallets
    ensures NextPhase(db, tx, id, at, clock) ==
      Answered(ResultOf(tx.phase.d, db.wallets[tx.phase.d.req.walletId], true))
  {
    hide ResultOf;
    hide NormalizeCommand;
    hide ReserveInbox;
    hide ValidWager;
    hide KeyIndex;
    hide ExternalIndex;
    hide InboxClosed;
  }

  lemma RecalledStep(s: Sys, tid: nat, id: Id, at: Time)
    requires Safe(s) && tid in s.txs && s.txs[tid].phase.Recalled? && id !in s.db.wagers && !SomeoneUsesId(s, id)
    ensures TxFits(s.db, s.txs[tid]) && s.txs[tid].job.Submit? && s.txs[tid].phase.d.req.walletId in s.db.wallets
    ensures var d := s.txs[tid].phase.d;
      Next(s, Statement(tid, id, at)) == WithPhase(s, tid, Answered(ResultOf(d, s.db.wallets[d.req.walletId], true)))
  {
    hide AllGood;
    hide AllApart;
    hide Run;
    hide TxFits;
    hide NextPhase;
    hide ResultOf;
    hide SomeoneUsesId;
    hide Placed;
    hide KeyIndex;
    hide ExternalIndex;
    hide InboxClosed;
    assert TxFits(s.db, s.txs[tid]);
    RecalledReads(s.db, s.txs[tid], id, at, s.clock);
  }

  /** The same for the replay of a completed message, which answers on reading the wallet. */
  lemma RecalledAnswers(s: Sys, tid: nat, id: Id, at: Time, call: Call)
    requires Safe(s) && tid in s.txs && s.txs[tid].phase.Recalled? && s.txs[tid].job.Submit?
    requires id !in s.db.wagers && !SomeoneUsesId(s, id)
    requires call.cmd == s.txs[tid].job.raw && call.inbox == s.txs[tid].job.inbox
    ensures var d := s.txs[tid].phase.d;
      && d.req.walletId in s.db.wallets && d.req.id in s.db.wagers
      && var w := s.db.wallets[d.req.walletId];
      && Next(s, Statement(tid, id, at)) == WithPhase(s, tid, Answered(ResultOf(d, w, true)))
      && (ProcessWager(s.db, call) == Ok((s.db, ResultOf(d, w, true))) <==> AnswerStands(s.db, d, w))
  {
    hide AllGood;
    hide AllFit;
    hide AllApart;
    hide TxFits;
    hide Run;
    hide Next;
    hide ProcessWager;
    hide Stored;
    hide AnswerStands;
    hide ResultOf;
    hide SomeoneUsesId;
    hide Placed;
    hide KeyIndex;
    hide ExternalIndex;
    hide InboxClosed;
    RecalledStep(s, tid, id, at);
    RunIsStored(s.history);
    RecallIsSerial(s.db, s.txs[tid], call);
  }

  // ---------- frozen answers ----------

  lemma NextGrows(s: Sys, a: Action)
    requires Safe(s)
    ensures Grows(s.db, Next(s, a).db)
  {
    hide Next;
    hide AllGood;
    hide Step;
    hide Grows;
    HistoryIsCommitOrder(s, a);
    NothingGrows(s.db);
    if |Next(s, a).history| == |s.history| + 1 {
      StepGrows(s.db, Next(s, a).history[|s.history|]);
    }
  }

  /** This transaction has read nothing about the wager from before it was terminal. */
  predicate Later(tx: Tx, id: Id) {
    match tx.phase
    case Recalled(d) => d.req.id == id ==> d.status.Terminal()
    case Replaying(d, _) => d.req.id == id ==> d.status.Terminal()
    case Replayed(d, _, _) => d.req.id == id ==> d.status.Terminal()
    case Closing(d, _, _) => d.req.id == id ==> d.status.Terminal()
    case Answered(reply) => reply.transactionId == id ==> reply.status.Terminal() && reply.replay
    case _ => tx.AtWork() ==> tx.phase.work.row.d.req.id != id
  }

  lemma StatementIsLater(db: Db, tx: Tx, newId: Id, at: Time, clock: Time, id: Id)
    requires Shape(db) && TxFits(db, tx) && newId !in db.wagers && Later(tx, id)
    requires id in db.wagers && db.wagers[id].d.status.Terminal()
    ensures Later(tx.(phase := NextPhase(db, tx, newId, at, clock)), id)
  {
    hide NextPhase;
    hide TxFits;
    hide Later;
    hide Placed;
    hide KeyIndex;
    hide ExternalIndex;
    hide InboxClosed;
    if tx.AtWork() || tx.phase.Locked? {
      WorkIsLater(db, tx, newId, at, clock, id);
    } else {
      ReadIsLater(db, tx, newId, at, clock, id);
    }
  }

  /** A wager that is read now is read as it stands. */
  lemma ReadIsLater(db: Db, tx: Tx, newId: Id, at: Time, clock: Time, id: Id)
    requires Shape(db) && TxFits(db, tx) && Later(tx, id) && !tx.AtWork() && !tx.phase.Locked?
    requires id in db.wagers && db.wagers[id].d.status.Terminal()
    ensures Later(tx.(phase := NextPhase(db, tx, newId, at, clock)), id)
  {
    hide NormalizeCommand;
    hide ValidMessage;
    hide ValidWager;
    hide PayloadHashOf;
    hide ReserveInbox;
    hide FindIdentity;
    hide WorkFits;
    hide ReplayFits;
    hide WasRead;
    hide AnswerFits;
    hide ReferenceSeen;
    hide Reversed;
    hide InboxClosed;
    if tx.job.Submit? && (tx.phase.Reserved? || tx.phase.Conflicted?) { FoundIsPresent(db, tx.job.cmd); }
  }

  lemma FoundIsPresent(db: Db, c: Command)
    requires Shape(db) && c.kind.Some?
    ensures FindIdentity(db, c).Found? ==>
      FindIdentity(db, c).d.req.id in db.wagers && db.wagers[FindIdentity(db, c).d.req.id].d == FindIdentity(db, c).d
  {
    hide PayloadHashOf;
    hide InboxClosed;
  }

  /** No transaction starts to work on a wager that is already terminal. */
  lemma WorkIsLater(db: Db, tx: Tx, newId: Id, at: Time, clock: Time, id: Id)
    requires Shape(db) && TxFits(db, tx) && newId !in db.wagers && Later(tx, id) && (tx.AtWork() || tx.phase.Locked?)
    requires id in db.wagers && db.wagers[id].d.status.Terminal()
    ensures Later(tx.(phase := NextPhase(db, tx, newId, at, clock)), id)
  {
    hide NormalizeCommand;
    hide ValidWager;
    hide ReferenceSeen;
    hide PayloadHashOf;
    hide ValidMessage;
    hide Reversed;
    hide LookupReference;
    hide KeyIndex;
    hide ExternalIndex;
    hide InboxClosed;
    hide WorkFits;
  }

  lemma CommitIsLater(db: Db, tx: Tx, st: Stamps, since: Time, failAt: Time, id: Id)
    requires Shape(db) && TxFits(db, tx) && Committing(tx) && Later(tx, id) && Effects(db, tx, st, since, failAt).Ok?
    ensures Later(tx.(phase := Answered(Effects(db, tx, st, since, failAt).value.1)), id)
  {
    hide CompleteInbox;
    hide Post;
    hide Insert;
    hide Persist;
    hide ValidMessage;
    hide RetryOutcome;
    hide Finish;
    hide NormalizeCommand;
    hide NewWager;
    hide ReferenceSeen;
    hide Insertable;
    hide Reversed;
    hide PayloadHashOf;
    hide Placed;
    hide KeyIndex;
    hide ExternalIndex;
    hide InboxClosed;
    if tx.phase.Judged? {
      var k := tx.phase.work;
      if tx.job.Submit? {
        var row', out := FinishIs(db, CallOf(tx, st), k.w, k.row, tx.phase.reference, tx.phase.reversed);
      } else {
        RetryRow(Attempted(k.row), k.w, RetryOf(tx, st, since, failAt), tx.phase.reference, tx.phase.reversed);
      }
    }
  }

  lemma NextIsLater(s: Sys, a: Action, tid: nat, id: Id)
    requires Safe(s) && id in s.db.wagers && s.db.wagers[id].d.status.Terminal()
    requires tid in s.txs ==> Later(s.txs[tid], id)
    requires tid in Next(s, a).txs
    ensures Later(Next(s, a).txs[tid], id)
  {
    hide AllGood;
    hide AllApart;
    hide TxFits;
    hide Run;
    hide Step;
    hide Effects;
    hide NextPhase;
    hide Blocked;
    hide SomeoneUsesId;
    hide NormalizeCommand;
    hide Serial;
    hide Placed;
    hide KeyIndex;
    hide ExternalIndex;
    hide InboxClosed;
    if tid in s.txs && Next(s, a).txs[tid] != s.txs[tid] {
      assert TxFits(s.db, s.txs[tid]);
      match a
      case Statement(_, newId, at) => StatementIsLater(s.db, s.txs[tid], newId, at, s.clock, id);
      case Commit(_, st, since, failAt, _) =>
        if Effects(s.db, s.txs[tid], AtServer(s, st), since, failAt).Ok? {
          CommitIsLater(s.db, s.txs[tid], AtServer(s, st), since, failAt, id);
        }
      case _ =>
    }
  }

  lemma ExecuteUnfolds(acts: seq<Action>)
    requires acts != []
    ensures Execute(acts) == Next(Execute(acts[..|acts| - 1]), acts[|acts| - 1])
  {
    hide Safe;
    hide Next;
  }

  /** What an interleaved run has committed, every continuation of it keeps. */
  lemma {:induction false} ExecuteGrows(acts: seq<Action>, more: seq<Action>)
    ensures Grows(Execute(acts).db, Execute(acts + more).db)
    decreases |more|
  {
    hide Execute;
    hide Safe;
    hide Grows;
    hide Next;
    if more == [] {
      assert acts + more == acts;
      NothingGrows(Execute(acts).db);
    } else {
      var front := acts + more[..|more| - 1];
      assert (acts + more)[..|acts + more| - 1] == front;
      ExecuteUnfolds(acts + more);
      ExecuteGrows(acts, more[..|more| - 1]);
      NextGrows(Execute(front), more[|more| - 1]);
      GrowsOn(Execute(acts).db, Execute(front).db, Execute(acts + more).db);
    }
  }

  lemma {:induction false} LaterTransactions(acts: seq<Action>, more: seq<Action>, tid: nat, id: Id)
    requires id in Execute(acts).db.wagers && Execute(acts).db.wagers[id].d.status.Terminal() &&
      tid !in Execute(acts).txs
    ensures tid in Execute(acts + more).txs ==> Later(Execute(acts + more).txs[tid], id)
    decreases |more|
  {
    hide Execute;
    hide Safe;
    hide Next;
    hide Later;
    if more == [] {
      assert acts + more == acts;
    } else {
      var front := acts + more[..|more| - 1];
      assert (acts + more)[..|acts + more| - 1] == front;
      ExecuteUnfolds(acts + more);
      LaterTransactions(acts, more[..|more| - 1], tid, id);
      ExecuteGrows(acts, more[..|more| - 1]);
      assert RowGrows(Execute(acts).db.wagers[id], Execute(front).db.wagers[id]);
      if tid in Execute(acts + more).txs { NextIsLater(Execute(front), more[|more| - 1], tid, id); }
    }
  }

  /** The wager that this submission is about: the one that its message is complete on, or else that has its key. */
  ghost predicate Names(db: Db, job: Job, id: Id) {
    job.Submit? && if job.inbox == None then KeyNames(db, job.cmd, id) else MessageNames(db, job, id)
  }

  lemma NamesOne(db: Db, job: Job, x: Id, y: Id)
    requires Names(db, job, x) && Names(db, job, y)
    ensures x == y
  {
  }

  lemma AnswerIsNamed(db: Db, job: Job, reply: Reply)
    requires AnswerFits(db, job, reply) && job.Submit?
    ensures Names(db, job, reply.transactionId)
  {
  }

  lemma AnsweredFits(acts: seq<Action>, tid: nat, reply: Reply)
    requires tid in Execute(acts).txs && Execute(acts).txs[tid].phase == Answered(reply)
    ensures AnswerFits(Execute(acts).db, Execute(acts).txs[tid].job, reply)
  {
    hide Execute;
    hide Inv;
    hide AllApart;
    hide Run;
    hide NormalizeCommand;
    hide ValidMessage;
    hide AnswerFits;
    assert TxFits(Execute(acts).db, Execute(acts).txs[tid]);
  }

  /**
   * Whatever is answered about a terminal wager to a transaction begun afterwards is its frozen result, however the
   * transactions interleave and whatever else is committed meanwhile.
   */
  lemma FrozenOnce(acts: seq<Action>, more: seq<Action>, tid: nat, id: Id, reply: Reply)
    requires id in Execute(acts).db.wagers && Execute(acts).db.wagers[id].d.status.Terminal() &&
      tid !in Execute(acts).txs
    requires tid in Execute(acts + more).txs && Execute(acts + more).txs[tid].phase == Answered(reply)
    requires reply.transactionId == id
    ensures reply == FrozenReply(Execute(acts).db.wagers[id].d)
  {
    hide Execute;
    hide Safe;
    hide MessageNames;
    hide KeyNames;
    var s, s' := Execute(acts), Execute(acts + more);
    LaterTransactions(acts, more, tid, id);
    ExecuteGrows(acts, more);
    assert RowGrows(s.db.wagers[id], s'.db.wagers[id]);
    AnsweredFits(acts + more, tid, reply);
  }

  /** So such a submission is answered with the frozen result exactly when its message or its key names the wager. */
  lemma FrozenAnswers(acts: seq<Action>, more: seq<Action>, tid: nat, id: Id, reply: Reply)
    requires id in Execute(acts).db.wagers && Execute(acts).db.wagers[id].d.status.Terminal() &&
      tid !in Execute(acts).txs
    requires tid in Execute(acts + more).txs && Execute(acts + more).txs[tid].phase == Answered(reply)
    requires Execute(acts + more).txs[tid].job.Submit?
    ensures reply == FrozenReply(Execute(acts).db.wagers[id].d) <==>
      Names(Execute(acts + more).db, Execute(acts + more).txs[tid].job, id)
  {
    hide Execute;
    hide Safe;
    hide AnswerFits;
    hide Names;
    var s' := Execute(acts + more);
    AnsweredFits(acts + more, tid, reply);
    AnswerIsNamed(s'.db, s'.txs[tid].job, reply);
    StoredUnder(acts, id);
    if Names(s'.db, s'.txs[tid].job, id) {
      NamesOne(s'.db, s'.txs[tid].job, reply.transactionId, id);
      FrozenOnce(acts, more, tid, id, reply);
    }
  }

  lemma StoredUnder(acts: seq<Action>, id: Id)
    requires id in Execute(acts).db.wagers
    ensures Execute(acts).db.wagers[id].d.req.id == id
  {
    hide Execute;
    hide AllGood;
    hide AllFit;
    hide AllApart;
    hide Run;
    hide KeyIndex;
    hide ExternalIndex;
    hide InboxClosed;
  }

  // ---------- exactly once ----------

  /** Two external wagers of one provider with the same idempotency key or the same external id. */
  predicate SharedIdentity(db: Db, x: Id, y: Id) {
    && x in db.wagers && y in db.wagers && db.wagers[x].d.req.kind != OPENING && db.wagers[y].d.req.kind != OPENING
    && (KeyOf(db.wagers[x].d.req) == KeyOf(db.wagers[y].d.req) ||
      ExternalOf(db.wagers[x].d.req) == ExternalOf(db.wagers[y].d.req))
  }

  /** Two ledger entries of one wallet for the same wager. */
  predicate SharedWager(db: Db, wid: Id, i: nat, j: nat) {
    && wid in db.wallets && wid in db.ledger && i < |db.ledger[wid]| && j < |db.ledger[wid]|
    && db.ledger[wid][i].transactionId == db.ledger[wid][j].transactionId
  }

  /**
   * However submissions, redeliveries, rollbacks and lost answers interleave: an identity belongs to at most one
   * wager, a wager to at most one ledger entry, a deleted message is complete on a stored wager, and no transaction
   * ever ends in one of the two UNAVAILABLE fallbacks.
   */
  lemma ExactlyOnce(acts: seq<Action>)
    ensures var s := Execute(acts);
      && (forall x, y :: SharedIdentity(s.db, x, y) ==> x == y)
      && (forall wid, i, j :: SharedWager(s.db, wid, i, j) ==> i == j)
      && (forall k :: k in s.acked ==>
        k in s.db.inbox && s.db.inbox[k].completedAt.Some? && s.db.inbox[k].wagerId.Some? &&
          s.db.inbox[k].wagerId.value in s.db.wagers)
      && (forall tid :: tid in s.txs ==> !s.txs[tid].phase.Stranded?)
  {
    hide Execute;
    hide AllGood;
    hide AllApart;
    hide Run;
    hide Placed;
    hide KeyIndex;
    hide ExternalIndex;
    hide NormalizeCommand;
    hide ValidMessage;
    var s := Execute(acts);
    forall x, y | SharedIdentity(s.db, x, y) ensures x == y {
      OneWagerPerIdentity(s.history, x, y);
    }
    forall wid, i, j | SharedWager(s.db, wid, i, j) ensures i == j {
      OneEntryPerWager(s.history, wid, i, j);
    }
    forall tid | tid in s.txs ensures !s.txs[tid].phase.Stranded? {
      assert TxFits(s.db, s.txs[tid]);
    }
  }

  // ---------- no deadlock ----------

  predicate Active(s: Sys, tid: nat) {
    tid in s.txs && !s.txs[tid].Over()
  }

  /** Locks are taken in the order message, wallet, wager identity, wager row, foreign key. */
  function Rank(phase: Phase): nat {
    match phase
    case Reserved => 1
    case Missed => 1
    case Locked(_) => 2
    case Conflicted(_) => 3
    case Replaying(_, _) => 3
    case Replayed(_, _, _) => 3
    case Working(_) => 4
    case Looked(_, _) => 4
    case Relocked(_, _) => 4
    case Judged(_, _, _) => 4
    case Closing(_, _, _) => 5
    case _ => 0
  }

  /** Who waits, waits for a transaction further along in that order. */
  lemma WaitsForLater(s: Sys, tid: nat) returns (u: nat)
    requires AllFit(s.db, s.txs) && Active(s, tid) && Blocked(s, tid)
    ensures Active(s, u) && Rank(s.txs[tid].phase) < Rank(s.txs[u].phase)
  {
    hide PhaseFits;
    hide NormalizeCommand;
    hide ValidMessage;
    hide AllFit;
    var tx := s.txs[tid];
    if tx.phase.Looked? {
      u :| u in s.txs && RowShared(s.txs[u], tx.phase.reference.value.req.id);
    } else {
      match tx.job
      case Submit(_, c, inbox) =>
        if tx.phase.Begun? {
          u :| u in s.txs && u != tid && InboxHeld(s.txs[u]) == Some(MessageKey(inbox.value));
        } else if tx.phase.Missed? {
          u :| u in s.txs && u != tid && WalletHeld(s.txs[u]) == Some(c.walletId);
        } else if tx.phase.Locked? {
          u :| u in s.txs && u != tid && RowHeld(s.txs[u]).Some? && SharesIdentity(RowHeld(s.txs[u]).value, c);
        } else {
          u :| u in s.txs && RowLocked(s.txs[u], tx.phase.d.req.id);
        }
      case Resolve(claim, _, _) =>
        if tx.phase.Begun? {
          u :| u in s.txs && u != tid && WalletHeld(s.txs[u]) == Some(claim.walletId);
        } else {
          u :| u in s.txs && RowShared(s.txs[u], claim.transactionId);
        }
    }
  }

  /** So there is no cycle of waiting: behind every transaction in progress stands one that can move. */
  lemma {:induction false} SomeoneCanMove(s: Sys, tid: nat) returns (u: nat)
    requires AllFit(s.db, s.txs) && Active(s, tid)
    ensures Active(s, u) && !Blocked(s, u)
    decreases 5 - Rank(s.txs[tid].phase)
  {
    if Blocked(s, tid) {
      u := WaitsForLater(s, tid);
      u := SomeoneCanMove(s, u);
    } else {
      u := tid;
    }
  }

  /** How many statements a transaction has behind it, at least. */
  function Depth(phase: Phase): (n: nat)
    ensures n <= 8
  {
    match phase
    case Begun => 0
    case InboxHit(_) => 1
    case Recalled(_) => 2
    case Reserved => 1
    case Missed => 2
    case Locked(_) => 3
    case Conflicted(_) => 4
    case Replaying(_, _) => 5
    case Replayed(_, _, _) => 6
    case Closing(_, _, _) => 7
    case Working(_) => 4
    case Looked(_, _) => 5
    case Relocked(_, _) => 6
    case Judged(_, _, _) => 7
    case _ => 8
  }

  lemma NextIsDeeper(db: Db, tx: Tx, id: Id, at: Time, clock: Time)
    requires Shape(db) && TxFits(db, tx) && !tx.Over() && !Committing(tx)
    ensures Depth(NextPhase(db, tx, id, at, clock)) > Depth(tx.phase)
  {
    hide Placed;
    hide KeyIndex;
    hide ExternalIndex;
    hide InboxClosed;
    hide NormalizeCommand;
    hide NewWager;
    hide FindIdentity;
    hide ReferenceSeen;
    hide ReplayFits;
    hide WasRead;
    hide AnswerFits;
    hide ValidMessage;
    hide PayloadHashOf;
    hide Claimed;
    hide Reversed;
    hide LookupReference;
    hide WorkFits;
    hide ReserveInbox;
  }

  lemma StatementIsDeeper(s: Sys, tid: nat, id: Id, at: Time)
    requires Safe(s) && Active(s, tid) && !Committing(s.txs[tid])
    requires !Blocked(s, tid) && id !in s.db.wagers && !SomeoneUsesId(s, id)
    ensures var s' := Next(s, Statement(tid, id, at));
      tid in s'.txs && Depth(s'.txs[tid].phase) > Depth(s.txs[tid].phase)
  {
    hide AllGood;
    hide AllApart;
    hide Run;
    hide Blocked;
    hide SomeoneUsesId;
    hide NextPhase;
    hide TxFits;
    hide Depth;
    hide Placed;
    hide KeyIndex;
    hide ExternalIndex;
    hide InboxClosed;
    assert TxFits(s.db, s.txs[tid]);
    NextIsDeeper(s.db, s.txs[tid], id, at, s.clock);
  }

  lemma CommitIsDeeper(s: Sys, tid: nat, st: Stamps, since: Time, failAt: Time, reported: bool)
    requires Safe(s) && Active(s, tid) && Committing(s.txs[tid])
    ensures var s' := Next(s, Commit(tid, st, since, failAt, reported));
      tid in s'.txs && Depth(s'.txs[tid].phase) > Depth(s.txs[tid].phase)
  {
    hide Inv;
    hide AllFit;
    hide AllApart;
    hide Run;
    hide Effects;
    hide Serial;
    hide TxFits;
  }

  /** And moving makes progress: a transaction ends after at most eight steps of its own. */
  lemma MovesDeeper(s: Sys, tid: nat, id: Id, at: Time, st: Stamps, since: Time, failAt: Time, reported: bool)
    requires Safe(s) && Active(s, tid) && !Blocked(s, tid) && id !in s.db.wagers && !SomeoneUsesId(s, id)
    ensures var a := if Committing(s.txs[tid]) then Commit(tid, st, since, failAt, reported)
      else Statement(tid, id, at);
      tid in Next(s, a).txs && Depth(Next(s, a).txs[tid].phase) > Depth(s.txs[tid].phase)
  {
    hide Safe;
    hide Next;
    hide Blocked;
    hide SomeoneUsesId;
    hide Depth;
    if Committing(s.txs[tid]) {
      CommitIsDeeper(s, tid, st, since, failAt, reported);
    } else {
      StatementIsDeeper(s, tid, id, at);
    }
  }
}
