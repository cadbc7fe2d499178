/** A transaction that runs without interruption, as steps of the concurrent system. */
module Solo {
  import opened Prelude
  import opened Wallet
  import opened Wager
  import opened Settlement
  import opened Tables
  import opened Reachable
  import opened Interleaving
  import opened Commits
  import opened Concurrency
  import opened Guarantees
  import Statements

  /** Transactions in progress hold no lock. */
  predicate Quiet(txs: map<nat, Tx>, tid: nat) {
    forall u :: u in txs && u != tid ==> Idle(txs[u])
  }

  predicate Idle(tx: Tx) {
    WalletHeld(tx) == None && InboxHeld(tx) == None && RowHeld(tx) == None && !tx.AtWork() && !tx.phase.Closing?
  }

  function InPhase(s: Sys, tid: nat, job: Job, phase: Phase): Sys {
    s.(txs := s.txs[tid := Tx(job, phase)])
  }

  /** A phase whose next statement waits for nobody who holds no lock. */
  predicate Walks(job: Job, phase: Phase) {
    && (phase.Replayed? ==> job.Submit? && job.inbox == None)
    && !phase.Closing? && !phase.Answered? && !phase.Failed? && !phase.Ambiguous? && !phase.Stranded?
  }

  lemma Fits(s: Sys, tid: nat)
    requires Safe(s) && tid in s.txs
    ensures Shape(s.db) && TxFits(s.db, s.txs[tid])
  {
    hide AllGood;
    hide Placed;
    hide KeyIndex;
    hide ExternalIndex;
    hide InboxClosed;
    hide TxFits;
  }

  /** One statement, when nobody else holds a lock. */
  lemma Walk(acts: seq<Action>, s: Sys, tid: nat, job: Job, phase: Phase, next: Phase, id: Id, at: Time)
    requires Execute(acts) == InPhase(s, tid, job, phase) && Quiet(s.txs, tid) && Walks(job, phase) &&
      id !in s.db.wagers
    requires RowHeld(Tx(job, phase)).Some? ==> RowHeld(Tx(job, phase)).value.id != id
    requires Shape(s.db) && TxFits(s.db, Tx(job, phase)) && NextPhase(s.db, Tx(job, phase), id, at, s.clock) == next
    ensures Execute(acts + [Statement(tid, id, at)]) == InPhase(s, tid, job, next)
  {
    hide Execute;
    hide Safe;
    hide NextPhase;
    hide TxFits;
    hide Shape;
    hide Blocked;
    hide SomeoneUsesId;
    NotWaiting(Execute(acts), tid, id);
    ExecuteUnfolds(acts + [Statement(tid, id, at)]);
    assert (acts + [Statement(tid, id, at)])[..|acts|] == acts;
    assert s.txs[tid := Tx(job, phase)][tid := Tx(job, next)] == s.txs[tid := Tx(job, next)];
  }

  /** The same, with what the transaction knows taken from the run. */
  lemma GoesOn(acts: seq<Action>, s: Sys, tid: nat, job: Job, phase: Phase, next: Phase, id: Id, at: Time)
    returns (acts': seq<Action>)
    requires Execute(acts) == InPhase(s, tid, job, phase) && Quiet(s.txs, tid) && Walks(job, phase)
    requires id !in s.db.wagers
    requires RowHeld(Tx(job, phase)).Some? ==> RowHeld(Tx(job, phase)).value.id != id
    requires Shape(s.db)
    requires TxFits(s.db, Tx(job, phase)) ==> NextPhase(s.db, Tx(job, phase), id, at, s.clock) == next
    ensures Execute(acts') == InPhase(s, tid, job, next)
  {
    hide Execute;
    hide Safe;
    hide TxFits;
    hide NextPhase;
    hide Quiet;
    hide Shape;
    hide Walks;
    hide RowHeld;
    Fits(Execute(acts), tid);
    Walk(acts, s, tid, job, phase, next, id, at);
    acts' := acts + [Statement(tid, id, at)];
  }

  lemma NotWaiting(s: Sys, tid: nat, id: Id)
    requires tid in s.txs && Quiet(s.txs, tid) && Walks(s.txs[tid].job, s.txs[tid].phase)
    requires RowHeld(s.txs[tid]).Some? ==> RowHeld(s.txs[tid]).value.id != id
    ensures !Blocked(s, tid) && !SomeoneUsesId(s, id)
  {
    forall u | u in s.txs ensures u == tid || Idle(s.txs[u]) {}
  }

  // ---------- a new command ----------

  function NewWork(db: Db, c: Command, id: Id, at: Time): Work
    requires c.kind.Some? && c.walletId in db.wallets
  {
    Work(db.wallets[c.walletId], NewRow(Fresh(RequestOf(c, id, at)), c.trace), NO_TIME)
  }

  /** A command that nothing stands in the way of inserting. */
  ghost predicate Opens(db: Db, raw: Command, c: Command, id: Id, at: Time) {
    && Shape(db) && NormalizeCommand(raw) == Ok(c) && FindIdentity(db, c) == Absent
    && c.walletId in db.wallets && db.wallets[c.walletId].playerId == c.playerId
    && NewWager(RequestOf(c, id, at)) == Ok(Fresh(RequestOf(c, id, at))) && id !in db.wagers
  }

  lemma ToLocked(db: Db, raw: Command, c: Command, inbox: Option<InboxMessage>, id: Id, at: Time, clock: Time,
          spare: Id)
    requires Opens(db, raw, c, id, at) && ReserveInbox(db, inbox) == Tables.Reserved
    ensures var job := Submit(raw, c, inbox);
      && (TxFits(db, Tx(job, Begun)) ==> NextPhase(db, Tx(job, Begun), spare, at, clock) == Phase.Reserved)
      && (TxFits(db, Tx(job, Phase.Reserved)) ==> NextPhase(db, Tx(job, Phase.Reserved), spare, at, clock) == Missed)
      && (TxFits(db, Tx(job, Missed)) ==>
        NextPhase(db, Tx(job, Missed), spare, at, clock) == Locked(db.wallets[c.walletId]))
  {
    hide NormalizeCommand;
    hide FindIdentity;
    hide NewWager;
    hide ValidMessage;
  }

  lemma ToWorking(db: Db, raw: Command, c: Command, inbox: Option<InboxMessage>, id: Id, at: Time, clock: Time)
    requires Opens(db, raw, c, id, at)
    ensures var tx := Tx(Submit(raw, c, inbox), Locked(db.wallets[c.walletId]));
      TxFits(db, tx) ==> NextPhase(db, tx, id, at, clock) == Working(NewWork(db, c, id, at))
  {
    hide PayloadHashOf;
    hide KeyIndex;
    hide ExternalIndex;
    hide NormalizeCommand;
    hide NewWager;
    hide Placed;
    hide InboxClosed;
  }

  lemma ToLooked(db: Db, job: Job, k: Work, spare: Id, at: Time, clock: Time)
    requires Shape(db) && TxFits(db, Tx(job, Working(k))) &&
      ExternalIndex(View(db, job, k.row).wagers, View(db, job, k.row).byExternal)
    ensures NextPhase(db, Tx(job, Working(k)), spare, at, clock) ==
      Looked(k, LookupReference(View(db, job, k.row), k.row.d.req))
  {
    hide TxFits;
    hide Placed;
    hide KeyIndex;
    hide InboxClosed;
  }

  lemma ToRelocked(db: Db, job: Job, k: Work, spare: Id, at: Time, clock: Time)
    requires ExternalIndex(View(db, job, k.row).wagers, View(db, job, k.row).byExternal)
    requires var tx := Tx(job, Looked(k, LookupReference(View(db, job, k.row), k.row.d.req)));
      Shape(db) && TxFits(db, tx)
    ensures var reference := LookupReference(View(db, job, k.row), k.row.d.req);
      NextPhase(db, Tx(job, Looked(k, reference)), spare, at, clock) == Relocked(k, reference)
  {
    var view := View(db, job, k.row);
    var reference := LookupReference(view, k.row.d.req);
    if SameWallet(k, reference) { Reread(db, job, k, reference); }
    hide TxFits;
    hide Placed;
    hide KeyIndex;
    hide InboxClosed;
  }

  lemma Reread(db: Db, job: Job, k: Work, reference: Option<WagerData>)
    requires Shape(db) && TxFits(db, Tx(job, Looked(k, reference))) && SameWallet(k, reference)
    ensures var view := View(db, job, k.row);
      reference.value.req.id in view.wagers && view.wagers[reference.value.req.id].d == reference.value
  {
    hide NormalizeCommand;
    hide WorkFits;
    hide ReferenceSeen;
    hide Placed;
    hide KeyIndex;
    hide ExternalIndex;
    hide InboxClosed;
    Statements.RelockReadsSame(db, job, k, reference);
  }

  lemma ToJudged(db: Db, job: Job, k: Work, reference: Option<WagerData>, spare: Id, at: Time, clock: Time)
    requires Shape(db) && TxFits(db, Tx(job, Relocked(k, reference)))
    ensures NextPhase(db, Tx(job, Relocked(k, reference)), spare, at, clock) ==
      Judged(k, reference, ReadReversed(View(db, job, k.row).wagers, reference))
  {
    hide TxFits;
    hide Placed;
    hide KeyIndex;
    hide ExternalIndex;
    hide InboxClosed;
  }

  /** From Working to Judged in three statements. */
  lemma WalkToJudged(acts: seq<Action>, s: Sys, tid: nat, job: Job, k: Work, spare: Id, at: Time)
    returns (acts': seq<Action>)
    requires Execute(acts) == InPhase(s, tid, job, Working(k)) && Quiet(s.txs, tid)
    requires spare !in s.db.wagers && spare != k.row.d.req.id
    ensures Shape(s.db) && WorkFits(s.db, job, k)
    ensures var view := View(s.db, job, k.row);
      && ExternalIndex(view.wagers, view.byExternal)
      && var reference := LookupReference(view, k.row.d.req);
      Execute(acts') == InPhase(s, tid, job, Judged(k, reference, ReadReversed(view.wagers, reference)))
  {
    hide Execute;
    hide Safe;
    hide TxFits;
    hide NextPhase;
    hide WorkFits;
    hide ReadReversed;
    hide Placed;
    hide KeyIndex;
    hide InboxClosed;
    WorkingFits(acts, s, tid, job, k);
    Statements.ViewIndexed(s.db, job, k);
    var view := View(s.db, job, k.row);
    var reference := LookupReference(view, k.row.d.req);
    hide LookupReference;
    if TxFits(s.db, Tx(job, Working(k))) { ToLooked(s.db, job, k, spare, at, s.clock); }
    var acts1 := GoesOn(acts, s, tid, job, Working(k), Looked(k, reference), spare, at);
    if TxFits(s.db, Tx(job, Looked(k, reference))) { ToRelocked(s.db, job, k, spare, at, s.clock); }
    var acts2 := GoesOn(acts1, s, tid, job, Looked(k, reference), Relocked(k, reference), spare, at);
    if TxFits(s.db, Tx(job, Relocked(k, reference))) { ToJudged(s.db, job, k, reference, spare, at, s.clock); }
    var reversed := ReadReversed(view.wagers, reference);
    acts' := GoesOn(acts2, s, tid, job, Relocked(k, reference), Judged(k, reference, reversed), spare, at);
  }

  lemma WorkingFits(acts: seq<Action>, s: Sys, tid: nat, job: Job, k: Work)
    requires Execute(acts) == InPhase(s, tid, job, Working(k))
    ensures Shape(s.db) && WorkFits(s.db, job, k)
  {
    hide Execute;
    hide Safe;
    hide Shape;
    hide WorkFits;
    hide NormalizeCommand;
    Fits(Execute(acts), tid);
  }

  lemma BeginsAt(acts: seq<Action>, tid: nat, raw: Command, c: Command, inbox: Option<InboxMessage>)
    requires tid !in Execute(acts).txs && NormalizeCommand(raw) == Ok(c)
    ensures Execute(acts + [Begin(tid, raw, inbox)]) == InPhase(Execute(acts), tid, Submit(raw, c, inbox), Begun)
  {
    hide Execute;
    hide Safe;
    hide NormalizeCommand;
    ExecuteUnfolds(acts + [Begin(tid, raw, inbox)]);
    assert (acts + [Begin(tid, raw, inbox)])[..|acts|] == acts;
  }

  /** A commit that goes through and is reported. */
  lemma CommitsAt(acts: seq<Action>, s: Sys, tid: nat, job: Job, phase: Phase, st: Stamps, since: Time, failAt: Time,
          db: Db, reply: Reply)
    requires Execute(acts) == InPhase(s, tid, job, phase) && Committing(Tx(job, phase))
    requires Shape(s.db) && TxFits(s.db, Tx(job, phase)) &&
      Effects(s.db, Tx(job, phase), AtServer(s, st), since, failAt) == Ok((db, reply))
    ensures Execute(acts + [Commit(tid, st, since, failAt, true)]) ==
      InPhase(s.(db := db, history := s.history + [Serial(Tx(job, phase), AtServer(s, st), since, failAt)]), tid, job,
        Answered(reply))
  {
    hide Execute;
    hide Safe;
    hide TxFits;
    hide Effects;
    hide Shape;
    ExecuteUnfolds(acts + [Commit(tid, st, since, failAt, true)]);
    assert (acts + [Commit(tid, st, since, failAt, true)])[..|acts|] == acts;
    assert s.txs[tid := Tx(job, phase)][tid := Tx(job, Answered(reply))] == s.txs[tid := Tx(job, Answered(reply))];
  }

  lemma OpensMeans(db: Db, raw: Command, c: Command, id: Id, at: Time)
    requires Opens(db, raw, c, id, at)
    ensures NormalizeCommand(raw) == Ok(c) && c.kind.Some? && c.walletId in db.wallets && id !in db.wagers && Shape(db)
  {
    hide FindIdentity;
    hide NewWager;
    hide Placed;
    hide KeyIndex;
    hide ExternalIndex;
    hide InboxClosed;
  }

  /** From Begun to Locked. */
  lemma WalkToLocked(acts: seq<Action>, s: Sys, tid: nat, raw: Command, c: Command, inbox: Option<InboxMessage>,
          id: Id, at: Time, spare: Id)
    returns (acts': seq<Action>)
    requires Execute(acts) == InPhase(s, tid, Submit(raw, c, inbox), Begun) && Quiet(s.txs, tid) &&
      Opens(s.db, raw, c, id, at)
    requires spare !in s.db.wagers && ReserveInbox(s.db, inbox) == Tables.Reserved
    ensures c.walletId in s.db.wallets &&
      Execute(acts') == InPhase(s, tid, Submit(raw, c, inbox), Locked(s.db.wallets[c.walletId]))
  {
    hide Execute;
    hide Safe;
    hide TxFits;
    hide NextPhase;
    hide Opens;
    hide Shape;
    OpensMeans(s.db, raw, c, id, at);
    var job, w := Submit(raw, c, inbox), s.db.wallets[c.walletId];
    ToLocked(s.db, raw, c, inbox, id, at, s.clock, spare);
    var acts1 := GoesOn(acts, s, tid, job, Begun, Phase.Reserved, spare, at);
    var acts2 := GoesOn(acts1, s, tid, job, Phase.Reserved, Missed, spare, at);
    acts' := GoesOn(acts2, s, tid, job, Missed, Locked(w), spare, at);
  }

  /** From Begun to Working. */
  lemma WalkToWorking(acts: seq<Action>, s: Sys, tid: nat, raw: Command, c: Command, inbox: Option<InboxMessage>,
          id: Id, at: Time, spare: Id)
    returns (acts': seq<Action>)
    requires Execute(acts) == InPhase(s, tid, Submit(raw, c, inbox), Begun) && Quiet(s.txs, tid) &&
      Opens(s.db, raw, c, id, at)
    requires spare !in s.db.wagers && ReserveInbox(s.db, inbox) == Tables.Reserved
    ensures c.walletId in s.db.wallets && c.kind.Some?
    ensures Execute(acts') == InPhase(s, tid, Submit(raw, c, inbox), Working(NewWork(s.db, c, id, at)))
  {
    hide Execute;
    hide Safe;
    hide TxFits;
    hide NextPhase;
    hide Opens;
    hide Shape;
    OpensMeans(s.db, raw, c, id, at);
    var acts3 := WalkToLocked(acts, s, tid, raw, c, inbox, id, at, spare);
    ToWorking(s.db, raw, c, inbox, id, at, s.clock);
    Fits(Execute(acts3), tid);
    Walk(acts3, s, tid, Submit(raw, c, inbox), Locked(s.db.wallets[c.walletId]), Working(NewWork(s.db, c, id, at)), id,
      at);
    acts' := acts3 + [Statement(tid, id, at)];
  }

  lemma SeesIs(db: Db, row: WagerRow)
    requires var view := Insert(db, row); ExternalIndex(view.wagers, view.byExternal)
    ensures Sees(db, row) == LookupReference(Insert(db, row), row.d.req).Some?
  {
  }

  /**
   * A new command, with a new message or none, run from beginning to end while nobody else holds a lock, is a step of
   * the one-at-a-time run.
   */
  lemma SubmitAlone(acts: seq<Action>, tid: nat, raw: Command, c: Command, inbox: Option<InboxMessage>, id: Id,
          at: Time, st: Stamps, spare: Id, sees: bool, db: Db, reply: Reply)
    returns (acts': seq<Action>)
    requires var s := Execute(acts);
      && tid !in s.txs && Quiet(s.txs, tid) && Opens(s.db, raw, c, id, at) && spare !in s.db.wagers && spare != id
      && ReserveInbox(s.db, inbox) == Tables.Reserved
      && sees == Sees(s.db, NewWork(s.db, c, id, at).row)
      && ProcessWager(s.db, Call(raw, inbox, id, at, AtServer(s, st), sees)) == Ok((db, reply))
    ensures var s, call := Execute(acts), Call(raw, inbox, id, at, AtServer(Execute(acts), st), sees);
      Execute(acts') ==
        InPhase(s.(db := db, history := s.history + [OpProcess(call)]), tid, Submit(raw, c, inbox), Answered(reply))
  {
    hide Execute;
    hide Safe;
    hide TxFits;
    hide Shape;
    hide Opens;
    hide ProcessWager;
    hide Effects;
    hide WorkFits;
    hide ReadReversed;
    hide NormalizeCommand;
    hide LookupReference;
    hide Sees;
    var s, job := Execute(acts), Submit(raw, c, inbox);
    OpensMeans(s.db, raw, c, id, at);
    var k := NewWork(s.db, c, id, at);
    BeginsAt(acts, tid, raw, c, inbox);
    var acts1 := WalkToWorking(acts + [Begin(tid, raw, inbox)], s, tid, raw, c, inbox, id, at, spare);
    var acts2 := WalkToJudged(acts1, s, tid, job, k, spare, at);
    var view := View(s.db, job, k.row);
    var reference := LookupReference(view, k.row.d.req);
    var phase := Judged(k, reference, ReadReversed(view.wagers, reference));
    Fits(Execute(acts2), tid);
    SubmitIsSerial(s.db, Tx(job, phase), AtServer(s, st));
    SeesIs(s.db, k.row);
    CommitsAt(acts2, s, tid, job, phase, st, NO_TIME, NO_TIME, db, reply);
    acts' := acts2 + [Commit(tid, st, NO_TIME, NO_TIME, true)];
  }

  /** Whether the transaction finds the reference it names, in whatever wallet. */
  ghost predicate Sees(db: Db, row: WagerRow) {
    var k := (row.d.req.providerId, row.d.req.refExternal);
    row.d.req.refExternal != "" && k in Insert(db, row).byExternal
  }

  lemma Then(acts: seq<Action>, a: Action)
    ensures Execute(acts + [a]) == Next(Execute(acts), a)
  {
    hide Execute;
    hide Safe;
    hide Next;
    ExecuteUnfolds(acts + [a]);
    assert (acts + [a])[..|acts|] == acts;
  }

  // ---------- a reference retry ----------

  lemma RetryToLocked(db: Db, job: Job, spare: Id, at: Time, clock: Time)
    requires Shape(db) && job.Resolve? && TxFits(db, Tx(job, Begun)) && job.claim.walletId in db.wallets
    ensures NextPhase(db, Tx(job, Begun), spare, at, clock) == Locked(db.wallets[job.claim.walletId])
  {
    hide TxFits;
    hide KeyIndex;
    hide ExternalIndex;
    hide InboxClosed;
  }

  lemma RetryToWorking(db: Db, job: Job, w: WalletData, spare: Id, at: Time, clock: Time)
    requires Shape(db) && job.Resolve? && TxFits(db, Tx(job, Locked(w)))
    requires job.claim.transactionId in db.wagers && Claimed(db.wagers[job.claim.transactionId], job.claim, clock)
    ensures NextPhase(db, Tx(job, Locked(w)), spare, at, clock) ==
      Working(Work(w, db.wagers[job.claim.transactionId], clock))
  {
    hide TxFits;
    hide KeyIndex;
    hide ExternalIndex;
    hide InboxClosed;
  }

  lemma WalkToRetry(acts: seq<Action>, s: Sys, tid: nat, job: Job, spare: Id) returns (acts': seq<Action>)
    requires Execute(acts) == InPhase(s, tid, job, Begun) && Quiet(s.txs, tid) && job.Resolve? && spare !in s.db.wagers
    requires job.claim.walletId in s.db.wallets && job.claim.transactionId in s.db.wagers
    requires Claimed(s.db.wagers[job.claim.transactionId], job.claim, s.clock)
    ensures Execute(acts') ==
      InPhase(s, tid, job,
        Working(Work(s.db.wallets[job.claim.walletId], s.db.wagers[job.claim.transactionId], s.clock)))
  {
    hide Execute;
    hide Safe;
    hide TxFits;
    hide NextPhase;
    hide Shape;
    hide Claimed;
    var w := s.db.wallets[job.claim.walletId];
    Fits(Execute(acts), tid);
    RetryToLocked(s.db, job, spare, NO_TIME, s.clock);
    Walk(acts, s, tid, job, Begun, Locked(w), spare, NO_TIME);
    var acts1 := acts + [Statement(tid, spare, NO_TIME)];
    Fits(Execute(acts1), tid);
    RetryToWorking(s.db, job, w, spare, NO_TIME, s.clock);
    Walk(acts1, s, tid, job, Locked(w), Working(Work(w, s.db.wagers[job.claim.transactionId], s.clock)), spare,
      NO_TIME);
    acts' := acts1 + [Statement(tid, spare, NO_TIME)];
  }

  lemma RetrySeesIs(db: Db, q: Request)
    requires ExternalIndex(db.wagers, db.byExternal)
    ensures RetrySees(db, q) == LookupReference(db, q).Some?
  {
  }

  predicate RetrySees(db: Db, q: Request) {
    q.refExternal != "" && (q.providerId, q.refExternal) in db.byExternal
  }

  /** A retry, run from beginning to end while nobody else holds a lock, is a step of the one-at-a-time run. */
  lemma RetryAlone(acts: seq<Action>, tid: nat, r: Retry, st: Stamps, spare: Id, db: Db, reply: Reply)
    returns (acts': seq<Action>)
    requires var s := Execute(acts);
      && tid !in s.txs && Quiet(s.txs, tid) && spare !in s.db.wagers && r.clock == s.clock
      && r.stamps == AtServer(s, st)
      && r.maxAttempts >= 1 && r.ttl > 0 && r.claim.walletId in s.db.wallets && r.claim.transactionId in s.db.wagers
      && spare != s.db.wagers[r.claim.transactionId].d.req.id
      && Claimed(s.db.wagers[r.claim.transactionId], r.claim, r.clock)
      && r.seesForeign == RetrySees(s.db, s.db.wagers[r.claim.transactionId].d.req)
      && RetryReference(s.db, r) == Ok((db, reply))
    ensures var s := Execute(acts);
      Execute(acts') ==
        InPhase(s.(db := db, history := s.history + [OpRetry(r)]), tid, Resolve(r.claim, r.maxAttempts, r.ttl),
          Answered(reply))
  {
    hide Execute;
    hide Safe;
    hide TxFits;
    hide RetryReference;
    hide Effects;
    hide WorkFits;
    hide ReadReversed;
    hide LookupReference;
    hide RetrySees;
    hide Claimed;
    hide Placed;
    hide KeyIndex;
    hide InboxClosed;
    var s, job := Execute(acts), Resolve(r.claim, r.maxAttempts, r.ttl);
    Then(acts, BeginRetry(tid, r.claim, r.maxAttempts, r.ttl));
    var acts1 := WalkToRetry(acts + [BeginRetry(tid, r.claim, r.maxAttempts, r.ttl)], s, tid, job, spare);
    var k := Work(s.db.wallets[r.claim.walletId], s.db.wagers[r.claim.transactionId], s.clock);
    var acts2 := WalkToJudged(acts1, s, tid, job, k, spare, NO_TIME);
    var reference := LookupReference(s.db, k.row.d.req);
    var phase := Judged(k, reference, ReadReversed(s.db.wagers, reference));
    RetrySeesIs(s.db, k.row.d.req);
    Fits(Execute(acts2), tid);
    RetryIsSerial(s.db, Tx(job, phase), r.stamps, r.since, r.failAt);
    assert RetryOf(Tx(job, phase), r.stamps, r.since, r.failAt) == r;
    CommitsAt(acts2, s, tid, job, phase, st, r.since, r.failAt, db, reply);
    acts' := acts2 + [Commit(tid, st, r.since, r.failAt, true)];
  }
}
