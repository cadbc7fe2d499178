/**
 * Every interleaving of any number of transactions, with blocking, rollback at any point and lost commit
 * answers, leaves the tables that some one-at-a-time run leaves.
 */
module Concurrency {
  import opened Prelude
  import opened Wager
  import opened Settlement
  import opened Tables
  import opened Reachable
  import opened Runs
  import opened Growth
  import opened Interleaving
  import opened Statements
  import opened Commits
  import opened Isolation
  import opened Footprints

  // ---------- the system ----------

  /** One step of one transaction. A step that is not enabled, or waits for a lock, changes nothing. */
  function Next(s: Sys, a: Action): Sys
    requires Safe(s)
  {
    match a
    case Begin(tid, raw, inbox) =>
      if tid in s.txs || NormalizeCommand(raw).Fail? then s
      else s.(txs := s.txs[tid := Tx(Submit(raw, NormalizeCommand(raw).value, inbox), Begun)])
    case BeginRetry(tid, claim, maxAttempts, ttl) =>
      if tid in s.txs || maxAttempts < 1 || ttl <= 0 then s
      else s.(txs := s.txs[tid := Tx(Resolve(claim, maxAttempts, ttl), Begun)])
    case Statement(tid, id, at) =>
      if tid !in s.txs || s.txs[tid].Over() || Blocked(s, tid) || id in s.db.wagers || SomeoneUsesId(s, id) then s
      else WithPhase(s, tid, NextPhase(s.db, s.txs[tid], id, at, s.clock))
    case Commit(tid, st, since, failAt, reported) =>
      if tid !in s.txs || !Committing(s.txs[tid]) then s
      else
        (match Effects(s.db, s.txs[tid], AtServer(s, st), since, failAt)
         case Fail(code) => WithPhase(s, tid, Phase.Failed(code))
         case Ok((db', reply)) =>
           WithPhase(s.(db := db', history := s.history + [Serial(s.txs[tid], AtServer(s, st), since, failAt)]), tid,
                     if reported then Answered(reply) else Ambiguous))
    case Abort(tid) =>
      if tid !in s.txs || s.txs[tid].Over() then s else WithPhase(s, tid, Phase.Failed(UNAVAILABLE))
    case Acknowledge(tid) =>
      if tid !in s.txs || !s.txs[tid].phase.Answered? || s.txs[tid].job.Resolve? || s.txs[tid].job.inbox == None then s
      else s.(acked := s.acked + {MessageKey(s.txs[tid].job.inbox.value)})
    case Create(o) => if SomeoneUsesId(s, o.wagerId) then s else Alone(s, OpCreate(o))
    case ClaimWaiting(id, owner, token, lease) =>
      // SKIP LOCKED; uuidv7() tokens are fresh.
      if SomeoneLocksRow(s, id) || SomeoneSharesRow(s, id) || token in s.taken || lease <= 0 then s
      else Alone(s, ClaimOf(s, a)).(taken := s.taken[token := Issue(s.clock, lease)])
    case ReleaseWaiting(id, owner) => if SomeoneLocksRow(s, id) then s else Alone(s, OpRelease(id, owner))
    case Tick(d) => s.(clock := s.clock + d)
  }

  /** What the server stamps, it stamps by its own clock. */
  function AtServer(s: Sys, st: Stamps): Stamps { st.(dbNow := s.clock) }

  function ClaimOf(s: Sys, a: Action): Op
    requires a.ClaimWaiting? && a.lease > 0
  {
    OpClaim(a.id, Claim(a.owner, a.token, s.clock + Millis(a.lease)), s.clock)
  }

  function WithPhase(s: Sys, tid: nat, phase: Phase): Sys
    requires tid in s.txs
  {
    s.(txs := s.txs[tid := s.txs[tid].(phase := phase)])
  }

  /** A transaction of a single statement. */
  function Alone(s: Sys, op: Op): Sys
    requires Shape(s.db)
  {
    s.(db := Step(s.db, op), history := s.history + [op])
  }

  // ---------- locks ----------

  lemma ApartSymmetric(t: Tx, u: Tx)
    requires Apart(t, u)
    ensures Apart(u, t)
  {
  }

  lemma UpdateApart(txs: map<nat, Tx>, tid: nat, tx: Tx)
    requires AllApart(txs) && forall u :: u in txs && u != tid ==> Apart(tx, txs[u])
    ensures AllApart(txs[tid := tx])
  {
    var txs' := txs[tid := tx];
    forall t, u | t in txs' && u in txs' && t != u ensures Apart(txs'[t], txs'[u]) {
      if u == tid { ApartSymmetric(tx, txs[t]); }
    }
  }

  /** A new or finished transaction holds nothing. */
  lemma IdleIsApart(tx: Tx, u: Tx)
    requires tx.phase.Begun? || tx.Over()
    ensures Apart(tx, u)
  {
  }

  /** A statement locks a wallet only where it may wait for one. */
  lemma WalletTaken(db: Db, tx: Tx, id: Id, at: Time, clock: Time)
    requires Shape(db) && TxFits(db, tx)
    ensures var next := tx.(phase := NextPhase(db, tx, id, at, clock));
      || WalletHeld(next) == None || WalletHeld(next) == WalletHeld(tx)
      || (tx.job.Submit? && tx.phase.Missed? && WalletHeld(next) == Some(tx.job.cmd.walletId))
      || (tx.job.Resolve? && tx.phase.Begun? && WalletHeld(next) == Some(tx.job.claim.walletId))
  {
    hide KeyIndex;
    hide ExternalIndex;
    hide InboxClosed;
    hide NormalizeCommand;
    hide NewWager;
    hide FindIdentity;
    hide ReferenceSeen;
    hide ReplayFits;
    hide WasRead;
    hide AnswerFits;
    hide ValidMessage;
    hide PayloadHashOf;
    hide Claimed;
    hide Reversed;
    hide LookupReference;
    hide WorkFits;
    hide ReserveInbox;
  }

  lemma InboxTaken(db: Db, tx: Tx, id: Id, at: Time, clock: Time)
    requires Shape(db) && TxFits(db, tx)
    ensures var next := tx.(phase := NextPhase(db, tx, id, at, clock));
      || InboxHeld(next) == None || InboxHeld(next) == InboxHeld(tx)
      || (tx.job.Submit? && tx.phase.Begun? && tx.job.inbox.Some? &&
        InboxHeld(next) == Some(MessageKey(tx.job.inbox.value)))
  {
    hide NormalizeCommand;
    hide NewWager;
    hide FindIdentity;
    hide ReferenceSeen;
    hide ReplayFits;
    hide WasRead;
    hide AnswerFits;
    hide ValidMessage;
    hide PayloadHashOf;
    hide Claimed;
    hide Reversed;
    hide LookupReference;
    hide WorkFits;
    hide ReserveInbox;
  }

  lemma RowTaken(db: Db, tx: Tx, id: Id, at: Time, clock: Time)
    requires Shape(db) && TxFits(db, tx)
    ensures var next := tx.(phase := NextPhase(db, tx, id, at, clock));
      || RowHeld(next) == None || RowHeld(next) == RowHeld(tx)
      || (tx.job.Submit? && tx.phase.Locked? && RowHeld(next) == Some(RequestOf(tx.job.cmd, id, at)))
  {
    hide NormalizeCommand;
    hide ValidWager;
    hide FindIdentity;
    hide ReferenceSeen;
    hide ReplayFits;
    hide WasRead;
    hide AnswerFits;
    hide ValidMessage;
    hide PayloadHashOf;
    hide Claimed;
    hide Reversed;
    hide LookupReference;
    hide WorkFits;
    hide ReserveInbox;
  }

  /** Locks that another does not hold keep two transactions apart. */
  lemma TakenApart(next: Tx, tx: Tx, u: Tx)
    requires Apart(tx, u)
    requires WalletHeld(next) in {None, WalletHeld(tx)} || WalletHeld(next) != WalletHeld(u)
    requires InboxHeld(next) in {None, InboxHeld(tx)} || InboxHeld(next) != InboxHeld(u)
    requires RowHeld(next) in {None, RowHeld(tx)} || RowHeld(u) == None ||
      Distinct(RowHeld(next).value, RowHeld(u).value)
    ensures Apart(next, u)
  {
    hide WalletHeld;
    hide InboxHeld;
    hide RowHeld;
  }

  predicate Distinct(q: Request, r: Request) {
    q.id != r.id && KeyOf(q) != KeyOf(r) && ExternalOf(q) != ExternalOf(r)
  }

  lemma NotBlockedIsFree(s: Sys, tid: nat, id: Id, at: Time, u: nat)
    requires tid in s.txs && u in s.txs && u != tid && !Blocked(s, tid) && !SomeoneUsesId(s, id)
    ensures var tx := s.txs[tid];
      && (tx.job.Submit? && tx.phase.Missed? ==> WalletHeld(s.txs[u]) != Some(tx.job.cmd.walletId))
      && (tx.job.Resolve? && tx.phase.Begun? ==> WalletHeld(s.txs[u]) != Some(tx.job.claim.walletId))
      && (tx.job.Submit? && tx.phase.Begun? && tx.job.inbox.Some? ==>
        InboxHeld(s.txs[u]) != Some(MessageKey(tx.job.inbox.value)))
      && (tx.job.Submit? && tx.phase.Locked? && tx.job.cmd.kind.Some? && RowHeld(s.txs[u]).Some? ==>
        Distinct(RequestOf(tx.job.cmd, id, at), RowHeld(s.txs[u]).value))
  {
    hide WalletHeld;
    hide InboxHeld;
    hide RowHeld;
    hide PayloadHashOf;
    var tx := s.txs[tid];
    if tx.job.Submit? && tx.phase.Locked? && RowHeld(s.txs[u]).Some? {
      assert !SharesIdentity(RowHeld(s.txs[u]).value, tx.job.cmd);
    }
  }

  /** A statement that does not wait takes no lock that another holds. */
  lemma StatementApart(s: Sys, tid: nat, id: Id, at: Time, u: nat)
    requires Shape(s.db) && tid in s.txs && TxFits(s.db, s.txs[tid]) && u in s.txs && u != tid &&
      Apart(s.txs[tid], s.txs[u])
    requires !Blocked(s, tid) && !SomeoneUsesId(s, id)
    ensures Apart(s.txs[tid].(phase := NextPhase(s.db, s.txs[tid], id, at, s.clock)), s.txs[u])
  {
    hide NextPhase;
    hide PhaseFits;
    hide NormalizeCommand;
    hide RequestOf;
    hide WalletHeld;
    hide InboxHeld;
    hide RowHeld;
    hide Apart;
    hide Blocked;
    hide SomeoneUsesId;
    hide Distinct;
    hide Placed;
    hide KeyIndex;
    hide ExternalIndex;
    hide InboxClosed;
    var tx := s.txs[tid];
    WalletTaken(s.db, tx, id, at, s.clock);
    InboxTaken(s.db, tx, id, at, s.clock);
    RowTaken(s.db, tx, id, at, s.clock);
    NotBlockedIsFree(s, tid, id, at, u);
    TakenApart(tx.(phase := NextPhase(s.db, tx, id, at, s.clock)), tx, s.txs[u]);
  }

  // ---------- every step is safe ----------

  /** A transaction changes its phase only. */
  lemma PhaseKeeps(s: Sys, tid: nat, tx: Tx)
    requires Safe(s) && TxFits(s.db, tx) && forall u :: u in s.txs && u != tid ==> Apart(tx, s.txs[u])
    ensures Safe(s.(txs := s.txs[tid := tx]))
  {
    hide Inv;
    hide TxFits;
    hide Apart;
    hide Run;
    UpdateApart(s.txs, tid, tx);
  }

  /** A finished transaction that stored no message. */
  lemma EndKeeps(s: Sys, tid: nat, phase: Phase)
    requires Safe(s) && tid in s.txs && (phase.Failed? || phase.Ambiguous?)
    requires phase.Ambiguous? ==> !s.txs[tid].phase.Begun? && !s.txs[tid].phase.Failed?
    ensures Safe(WithPhase(s, tid, phase))
  {
    hide Inv;
    hide AllApart;
    hide Run;
    hide Apart;
    var tx := s.txs[tid].(phase := phase);
    assert TxFits(s.db, tx) by { assert TxFits(s.db, s.txs[tid]); }
    forall u | u in s.txs && u != tid ensures Apart(tx, s.txs[u]) { IdleIsApart(tx, s.txs[u]); }
    PhaseKeeps(s, tid, tx);
  }

  lemma StatementKeeps(s: Sys, tid: nat, id: Id, at: Time)
    requires Safe(s) && tid in s.txs && !Blocked(s, tid) && id !in s.db.wagers && !SomeoneUsesId(s, id)
    ensures TxFits(s.db, s.txs[tid]) && Safe(WithPhase(s, tid, NextPhase(s.db, s.txs[tid], id, at, s.clock)))
  {
    hide AllGood;
    hide TxFits;
    hide Apart;
    hide Run;
    hide NextPhase;
    hide Blocked;
    hide SomeoneUsesId;
    hide Placed;
    hide KeyIndex;
    hide ExternalIndex;
    hide InboxClosed;
    var tx := s.txs[tid];
    RunIsStored(s.history);
    StatementFits(s.db, tx, id, at, s.clock);
    forall u | u in s.txs && u != tid ensures Apart(tx.(phase := NextPhase(s.db, tx, id, at, s.clock)), s.txs[u]) {
      StatementApart(s, tid, id, at, u);
    }
    PhaseKeeps(s, tid, tx.(phase := NextPhase(s.db, tx, id, at, s.clock)));
  }

  /** A committed operation that leaves to every other transaction what it has locked. */
  lemma OperationKeeps(s: Sys, op: Op, tid: nat)
    requires Safe(s)
    requires forall u :: u in s.txs && u != tid ==> Spares(s.db, Step(s.db, op), s.txs[u])
    requires tid in s.txs ==> TxFits(Step(s.db, op), s.txs[tid])
    ensures Safe(Alone(s, op))
  {
    hide AllGood;
    hide TxFits;
    hide Spares;
    hide AllApart;
    hide Step;
    hide Placed;
    hide KeyIndex;
    hide ExternalIndex;
    hide InboxClosed;
    var db' := Step(s.db, op);
    StepKeeps(s.db, op);
    StepGrows(s.db, op);
    HistoryGrows(s, op);
    forall u | u in s.txs ensures TxFits(db', s.txs[u]) {
      if u != tid { SparedFits(s.db, db', s.txs[u]); }
    }
    forall k | k in s.acked ensures k in db'.inbox {
      assert k in s.db.inbox;
    }
  }

  lemma HistoryGrows(s: Sys, op: Op)
    requires s.db == Run(s.history) && Shape(s.db)
    ensures Step(s.db, op) == Run(s.history + [op])
  {
    hide AllGood;
    hide Step;
    assert (s.history + [op])[..|s.history + [op]| - 1] == s.history;
  }

  /** Committing has the effect of the same transaction run alone at this moment. */
  lemma EffectsAreSerial(db: Db, tx: Tx, st: Stamps, since: Time, failAt: Time)
    requires Shape(db) && Stored(db) && TxFits(db, tx) && Committing(tx) && Effects(db, tx, st, since, failAt).Ok?
    ensures Step(db, Serial(tx, st, since, failAt)) == Effects(db, tx, st, since, failAt).value.0
  {
    hide TxFits;
    hide Finish;
    hide FinishRetry;
    hide ProcessWager;
    hide RetryReference;
    hide CompleteInbox;
    hide Placed;
    hide KeyIndex;
    hide ExternalIndex;
    hide InboxClosed;
    hide Stored;
    hide AnswerStands;
    if tx.phase.Closing? {
      ReplayIsSerial(db, tx, st);
    } else if tx.job.Submit? {
      SubmitIsSerial(db, tx, st);
    } else {
      RetryIsSerial(db, tx, st, since, failAt);
    }
  }

  // ---------- the answer of a commit ----------

  lemma ReplayAnswers(db: Db, tx: Tx, st: Stamps)
    requires TxFits(db, tx) && tx.phase.Closing? && tx.job.Submit?
    ensures var db' := CompleteInbox(db, tx.job.inbox, tx.phase.d.req.id, st.dbNow);
      AnswerFits(db', tx.job, ResultOf(tx.phase.d, tx.phase.seen, true))
  {
    hide NormalizeCommand;
    hide ValidWager;
    hide PayloadHashOf;
  }

  /** The row that a settled command leaves, and the message that names it. */
  lemma FinishAnswers(db: Db, tx: Tx, st: Stamps)
    requires Shape(db) && TxFits(db, tx) && tx.phase.Judged? && tx.job.Submit? &&
      Effects(db, tx, st, NO_TIME, NO_TIME).Ok?
    ensures var (db', reply) := Effects(db, tx, st, NO_TIME, NO_TIME).value; AnswerFits(db', tx.job, reply)
  {
    hide Finish;
    hide NormalizeCommand;
    hide NewWager;
    hide ReferenceSeen;
    hide Insertable;
    hide Reversed;
    hide PayloadHashOf;
    hide CompleteInbox;
    hide ValidMessage;
    hide ResultOf;
    hide AnswerFits;
    hide Placed;
    hide KeyIndex;
    hide ExternalIndex;
    hide InboxClosed;
    var k := tx.phase.work;
    var row', out := FinishIs(db, CallOf(tx, st), k.w, k.row, tx.phase.reference, tx.phase.reversed);
    PostedAnswers(db, tx.job, k.row, row', out, st.dbNow);
  }

  /** The row written back is answered as it stands, under the command's own key and message. */
  lemma PostedAnswers(db: Db, job: Job, row: WagerRow, row': WagerRow, out: Outcome, at: Time)
    requires out.wallet.id in db.ledger && out.wallet.id in db.outbox && job.Submit?
    requires row'.d.req == row.d.req && row'.d == out.wager
    requires KeyOf(row.d.req) == (job.cmd.providerId, job.cmd.idempotencyKey)
    requires job.inbox.Some? ==> ValidMessage(job.inbox.value)
    ensures var db' := CompleteInbox(Post(Insert(db, row), row', out), job.inbox, row.d.req.id, at);
      AnswerFits(db', job, ResultOf(row'.d, out.wallet, false))
  {
  }

  lemma RetryAnswers(db: Db, tx: Tx, st: Stamps, since: Time, failAt: Time)
    requires Shape(db) && TxFits(db, tx) && tx.phase.Judged? && tx.job.Resolve? &&
      Effects(db, tx, st, since, failAt).Ok?
    ensures var (db', reply) := Effects(db, tx, st, since, failAt).value; AnswerFits(db', tx.job, reply)
  {
    hide RetryOutcome;
    hide ReferenceSeen;
    hide Reversed;
    hide KeyIndex;
    hide ExternalIndex;
    hide InboxClosed;
    var k, r := tx.phase.work, RetryOf(tx, st, since, failAt);
    RetryRow(Attempted(k.row), k.w, r, tx.phase.reference, tx.phase.reversed);
  }

  /** What a commit answers is true of the tables that it leaves. */
  lemma EffectsAnswer(db: Db, tx: Tx, st: Stamps, since: Time, failAt: Time)
    requires Shape(db) && TxFits(db, tx) && Committing(tx) && Effects(db, tx, st, since, failAt).Ok?
    ensures var (db', reply) := Effects(db, tx, st, since, failAt).value; AnswerFits(db', tx.job, reply)
  {
    hide AnswerFits;
    hide Finish;
    hide FinishRetry;
    hide PhaseFits;
    hide NormalizeCommand;
    hide CompleteInbox;
    hide Placed;
    hide KeyIndex;
    hide ExternalIndex;
    hide InboxClosed;
    if tx.phase.Closing? {
      ReplayAnswers(db, tx, st);
    } else if tx.job.Submit? {
      FinishAnswers(db, tx, st);
    } else {
      RetryAnswers(db, tx, st, since, failAt);
    }
  }

  lemma OthersSpared(s: Sys, tid: nat, db': Db)
    requires Shape(s.db) && AllFit(s.db, s.txs) && AllApart(s.txs) && tid in s.txs && TouchesOwn(s.db, db', s.txs[tid])
    ensures forall u :: u in s.txs && u != tid ==> Spares(s.db, db', s.txs[u])
  {
    hide TxFits;
    hide Apart;
    hide TouchesOwn;
    hide Spares;
    hide Placed;
    hide KeyIndex;
    hide ExternalIndex;
    hide InboxClosed;
    forall u | u in s.txs && u != tid ensures Spares(s.db, db', s.txs[u]) {
      TouchSpares(s.db, db', s.txs[tid], s.txs[u]);
    }
  }

  lemma EndedFits(s: Sys, tid: nat, db: Db)
    requires AllFit(s.db, s.txs) && tid in s.txs && Committing(s.txs[tid])
    ensures TxFits(db, s.txs[tid].(phase := Ambiguous))
  {
    hide NormalizeCommand;
    hide ValidMessage;
    assert TxFits(s.db, s.txs[tid]);
  }

  /** First the transaction ends without an answer... */
  lemma EndedKeeps(s: Sys, tid: nat, op: Op)
    requires Safe(s) && tid in s.txs && Committing(s.txs[tid])
    requires forall u :: u in s.txs && u != tid ==> Spares(s.db, Step(s.db, op), s.txs[u])
    ensures Safe(Alone(WithPhase(s, tid, Ambiguous), op))
  {
    hide AllGood;
    hide AllFit;
    hide AllApart;
    hide Spares;
    hide Step;
    hide Run;
    hide TxFits;
    hide Placed;
    hide KeyIndex;
    hide ExternalIndex;
    hide InboxClosed;
    var s1 := WithPhase(s, tid, Ambiguous);
    EndKeeps(s, tid, Ambiguous);
    EndedFits(s, tid, Step(s.db, op));
    OperationKeeps(s1, op, tid);
  }

  /** ...then the answer arrives, if it does. */
  lemma AnswerKeeps(s: Sys, tid: nat, reply: Reply)
    requires Safe(s) && tid in s.txs && s.txs[tid].phase == Ambiguous
    requires AnswerFits(s.db, s.txs[tid].job, reply)
    ensures Safe(WithPhase(s, tid, Answered(reply)))
  {
    hide Inv;
    hide Run;
    hide NormalizeCommand;
    hide ValidMessage;
    hide AllApart;
    hide AnswerFits;
    var tx := s.txs[tid].(phase := Answered(reply));
    assert TxFits(s.db, tx) by { assert TxFits(s.db, s.txs[tid]); }
    forall u | u in s.txs && u != tid ensures Apart(tx, s.txs[u]) { IdleIsApart(tx, s.txs[u]); }
    PhaseKeeps(s, tid, tx);
  }

  lemma CommitKeeps(s: Sys, tid: nat, st: Stamps, since: Time, failAt: Time, phase: Phase)
    requires Safe(s) && tid in s.txs && Committing(s.txs[tid]) && TxFits(s.db, s.txs[tid])
    requires Effects(s.db, s.txs[tid], st, since, failAt).Ok?
    requires phase in {Ambiguous, Answered(Effects(s.db, s.txs[tid], st, since, failAt).value.1)}
    ensures Safe(WithPhase(Alone(s, Serial(s.txs[tid], st, since, failAt)), tid, phase))
  {
    hide AllGood;
    hide AllFit;
    hide AllApart;
    hide TxFits;
    hide Apart;
    hide Run;
    hide Step;
    hide Effects;
    hide Placed;
    hide KeyIndex;
    hide ExternalIndex;
    hide InboxClosed;
    hide TouchesOwn;
    hide Spares;
    hide Serial;
    hide AnswerFits;
    var tx := s.txs[tid];
    var op := Serial(tx, st, since, failAt);
    CommitSpares(s, tid, st, since, failAt);
    EndedKeeps(s, tid, op);
    var s2 := Alone(WithPhase(s, tid, Ambiguous), op);
    assert WithPhase(Alone(s, op), tid, phase) == WithPhase(s2, tid, phase);
    if phase.Answered? {
      EffectsAnswer(s.db, tx, st, since, failAt);
      AnswerKeeps(s2, tid, phase.reply);
    } else {
      assert WithPhase(s2, tid, phase) == s2;
    }
  }

  lemma CommitSpares(s: Sys, tid: nat, st: Stamps, since: Time, failAt: Time)
    requires Safe(s) && tid in s.txs && Committing(s.txs[tid]) && TxFits(s.db, s.txs[tid])
    requires Effects(s.db, s.txs[tid], st, since, failAt).Ok?
    ensures var op := Serial(s.txs[tid], st, since, failAt);
      && Step(s.db, op) == Effects(s.db, s.txs[tid], st, since, failAt).value.0
      && forall u :: u in s.txs && u != tid ==> Spares(s.db, Step(s.db, op), s.txs[u])
  {
    hide AllGood;
    hide AllFit;
    hide AllApart;
    hide TxFits;
    hide Run;
    hide Step;
    hide Effects;
    hide TouchesOwn;
    hide Spares;
    hide Serial;
    hide Placed;
    hide KeyIndex;
    hide ExternalIndex;
    hide InboxClosed;
    RunIsStored(s.history);
    EffectsAreSerial(s.db, s.txs[tid], st, since, failAt);
    EffectsTouch(s.db, s.txs[tid], st, since, failAt);
    OthersSpared(s, tid, Effects(s.db, s.txs[tid], st, since, failAt).value.0);
  }

  // ---------- single statements ----------

  /** A locked wallet is stored. */
  lemma HeldIsStored(db: Db, tx: Tx)
    requires Shape(db) && TxFits(db, tx) && WalletHeld(tx).Some?
    ensures WalletHeld(tx).value in db.wallets
  {
    hide NormalizeCommand;
    hide ReferenceSeen;
    hide Reversed;
    hide ReplayFits;
    hide NewWager;
    hide Claimed;
    hide Placed;
    hide KeyIndex;
    hide ExternalIndex;
    hide InboxClosed;
  }

  /** CreateWallet adds rows under identifiers that nothing else uses. */
  lemma CreateAdds(db: Db, o: Opening)
    requires CreateWallet(db, o).Ok?
    ensures var db' := CreateWallet(db, o).value;
      && o.walletId !in db.wallets
      && (forall w :: w in db.wallets ==> w in db'.wallets && db'.wallets[w] == db.wallets[w])
      && (forall id {:trigger db'.wagers[id]} :: id in db'.wagers && id !in db.wagers ==>
        id == o.wagerId && db'.wagers[id].d.req.walletId == o.walletId)
      && (forall id {:trigger db'.wagers[id]} {:trigger db.wagers[id]} :: id in db.wagers ==>
        id in db'.wagers && db'.wagers[id] == db.wagers[id])
      && db'.byKey == db.byKey && db'.byExternal == db.byExternal && db'.inbox == db.inbox
  {
    hide CreateWallet;
    var row, entries, events := CreateIs(db, o);
  }

  lemma CreateSpares(db: Db, o: Opening, tx: Tx)
    requires Shape(db) && TxFits(db, tx) && (RowHeld(tx).Some? ==> RowHeld(tx).value.id != o.wagerId)
    ensures Spares(db, Step(db, OpCreate(o)), tx)
  {
    hide TxFits;
    hide CreateWallet;
    hide Placed;
    hide KeyIndex;
    hide ExternalIndex;
    hide InboxClosed;
    if WalletHeld(tx).Some? { HeldIsStored(db, tx); }
    if CreateWallet(db, o).Ok? { CreateAdds(db, o); }
  }

  /** The claim columns of a row that nobody has locked. */
  lemma RelabelSpares(db: Db, id: Id, claim: Option<Claim>, tx: Tx)
    requires id in db.wagers && !RowLocked(tx, id)
    ensures Spares(db, db.(wagers := db.wagers[id := db.wagers[id].(claim := claim)]), tx)
  {
    hide RowLocked;
    hide WalletHeld;
    hide InboxHeld;
    hide RowHeld;
  }

  lemma NothingSpares(db: Db, tx: Tx)
    ensures Spares(db, db, tx)
  {
    hide RowLocked;
    hide WalletHeld;
    hide InboxHeld;
    hide RowHeld;
  }

  lemma ClaimSpares(db: Db, op: Op, id: Id, tx: Tx)
    requires Shape(db) && !RowLocked(tx, id) && ((op.OpClaim? && op.id == id) || (op.OpRelease? && op.id == id))
    ensures Spares(db, Step(db, op), tx)
  {
    hide Claimable;
    hide Spares;
    hide RowLocked;
    hide Placed;
    hide KeyIndex;
    hide ExternalIndex;
    hide InboxClosed;
    NothingSpares(db, tx);
    if id in db.wagers {
      RelabelSpares(db, id, if op.OpClaim? then Some(op.claim) else None, tx);
    }
  }

  // ---------- all interleavings ----------

  lemma NextKeeps(s: Sys, a: Action)
    requires Safe(s)
    ensures Safe(Next(s, a))
  {
    hide AllGood;
    hide AllFit;
    hide AllApart;
    hide TxFits;
    hide Run;
    hide Step;
    hide Effects;
    hide NextPhase;
    hide NormalizeCommand;
    hide Blocked;
    hide SomeoneUsesId;
    hide SomeoneLocksRow;
    hide Serial;
    hide Placed;
    hide KeyIndex;
    hide ExternalIndex;
    hide InboxClosed;
    hide Spares;
    match a
    case Begin(tid, raw, inbox) => BeginKeeps(s, a);
    case BeginRetry(tid, claim, maxAttempts, ttl) => BeginKeeps(s, a);
    case Statement(tid, id, at) =>
      if Next(s, a) != s { StatementKeeps(s, tid, id, at); }
    case Commit(tid, st, since, failAt, reported) => CommitActionKeeps(s, a);
    case Abort(tid) =>
      if Next(s, a) != s { EndKeeps(s, tid, Phase.Failed(UNAVAILABLE)); }
    case Acknowledge(tid) => AcknowledgeKeeps(s, tid);
    case Create(o) => AloneKeeps(s, a);
    case ClaimWaiting(id, owner, token, lease) => AloneKeeps(s, a);
    case ReleaseWaiting(id, owner) => AloneKeeps(s, a);
    case Tick(d) =>
  }

  lemma BeginKeeps(s: Sys, a: Action)
    requires Safe(s) && (a.Begin? || a.BeginRetry?)
    ensures Safe(Next(s, a))
  {
    hide Inv;
    hide AllFit;
    hide AllApart;
    hide Run;
    hide NormalizeCommand;
    hide Apart;
    var s' := Next(s, a);
    if s' != s {
      var tx := s'.txs[a.tid];
      forall u | u in s.txs && u != a.tid ensures Apart(tx, s.txs[u]) { IdleIsApart(tx, s.txs[u]); }
      PhaseKeeps(s, a.tid, tx);
    }
  }

  lemma CommitActionKeeps(s: Sys, a: Action)
    requires Safe(s) && a.Commit?
    ensures Safe(Next(s, a))
  {
    hide AllGood;
    hide AllApart;
    hide TxFits;
    hide Run;
    hide Step;
    hide Effects;
    hide Serial;
    hide Placed;
    hide KeyIndex;
    hide ExternalIndex;
    hide InboxClosed;
    var st := AtServer(s, a.stamps);
    if a.tid in s.txs && Committing(s.txs[a.tid]) {
      match Effects(s.db, s.txs[a.tid], st, a.since, a.failAt)
      case Fail(code) => EndKeeps(s, a.tid, Phase.Failed(code));
      case Ok((db', reply)) =>
        CommitSpares(s, a.tid, st, a.since, a.failAt);
        CommitKeeps(s, a.tid, st, a.since, a.failAt, if a.reported then Answered(reply) else Ambiguous);
    }
  }

  lemma AcknowledgeKeeps(s: Sys, tid: nat)
    requires Safe(s)
    ensures Safe(Next(s, Acknowledge(tid)))
  {
    hide Inv;
    hide AllApart;
    hide Run;
    hide NormalizeCommand;
    hide ValidMessage;
    if tid in s.txs { assert TxFits(s.db, s.txs[tid]); }
  }

  lemma AloneKeeps(s: Sys, a: Action)
    requires Safe(s) && (a.Create? || a.ClaimWaiting? || a.ReleaseWaiting?)
    ensures Safe(Next(s, a))
  {
    hide AllGood;
    hide AllApart;
    hide TxFits;
    hide Run;
    hide Step;
    hide Spares;
    hide RowLocked;
    hide RowHeld;
    hide Placed;
    hide KeyIndex;
    hide ExternalIndex;
    hide InboxClosed;
    if Next(s, a) != s {
      var op := if a.Create? then OpCreate(a.o) else if a.ClaimWaiting? then ClaimOf(s, a)
        else OpRelease(a.id, a.owner);
      assert Next(s, a) == Alone(s, op).(taken := Next(s, a).taken);
      forall u | u in s.txs ensures Spares(s.db, Step(s.db, op), s.txs[u]) && TxFits(Step(s.db, op), s.txs[u]) {
        if a.Create? { CreateSpares(s.db, a.o, s.txs[u]); } else { ClaimSpares(s.db, op, a.id, s.txs[u]); }
        StepKeeps(s.db, op);
        StepGrows(s.db, op);
        SparedFits(s.db, Step(s.db, op), s.txs[u]);
      }
      OperationKeeps(s, op, 0);
    }
  }

  const START := Sys(EMPTY, map[], [], {}, NO_TIME, map[])

  /**
   * Any interleaving, from empty tables: the committed tables are those of the one-at-a-time run `history`,
   * whose order is the order of commits, and everything that a one-at-a-time run guarantees holds of them.
   */
  ghost function Execute(acts: seq<Action>): (s: Sys)
    ensures Safe(s)
  {
    if acts == [] then
      EmptyKeeps();
      assert Run([]) == EMPTY;
      START
    else
      var before := Execute(acts[..|acts| - 1]);
      NextKeeps(before, acts[|acts| - 1]);
      Next(before, acts[|acts| - 1])
  }
}
