/** The answer to a command never changes once its wager is terminal (store.go, process.go). */
module Frozen {
  import opened Prelude
  import opened Wallet
  import opened Wager
  import opened Tables
  import opened Accounts
  import opened Reachable
  import opened Runs
  import opened Growth

  /** The command names this wager: same provider, key and payload. */
  predicate Repeats(c: Command, d: WagerData) {
    c.kind.Some? && c.providerId == d.req.providerId && c.idempotencyKey == d.req.idempotencyKey &&
      PayloadHashOf(c) == d.req.payloadHash
  }

  // ---------- the stored hash ----------

  /** The hash of a stored request is that of its own content. */
  predicate Hashed(q: Request) {
    q.kind != OPENING ==>
      q.payloadHash == Sha256(Fingerprint(q.providerId, q.externalId, q.playerId, q.walletId, q.roundId, q.gameId,
        q.kind, q.money, q.refExternal))
  }

  /** So a repeated command has the very content of the wager that it finds. */
  lemma RepeatHasContent(c: Command, d: WagerData)
    requires Repeats(c, d) && d.req.kind != OPENING && Hashed(d.req)
    ensures d.req == RequestOf(c, d.req.id, d.req.createdAt)
  {
  }

  lemma FinishHashed(db: Db, call: Call, w: WalletData, row: WagerRow, reference: Option<WagerData>, reversed: bool,
          id: Id)
    requires w.id in db.ledger && w.id in db.outbox && Finish(db, call, w, row, reference, reversed).Ok?
    requires Hashed(row.d.req) && id in Finish(db, call, w, row, reference, reversed).value.0.wagers
    ensures id in db.wagers || Hashed(Finish(db, call, w, row, reference, reversed).value.0.wagers[id].d.req)
  {
    hide Finish;
    hide Hashed;
    var row', out := FinishIs(db, call, w, row, reference, reversed);
  }

  lemma NewIsHashed(db: Db, call: Call, c: Command, id: Id)
    requires Shape(db) && c.kind.Some? && FindIdentity(db, c) == Absent && ProcessNew(db, call, c).Ok?
    requires id in ProcessNew(db, call, c).value.0.wagers
    ensures id in db.wagers || Hashed(ProcessNew(db, call, c).value.0.wagers[id].d.req)
  {
    hide Finish;
    hide FindIdentity;
    hide Placed;
    hide KeyIndex;
    hide InboxClosed;
    var row := RowOf(call, c);
    NewIsInsertable(db, call, c);
    InsertShape(db, row);
    NewIsFinished(db, call, c);
    var inserted := Insert(db, row);
    var reference := ReadReference(inserted, row.d.req, call.seesForeign);
    FinishHashed(db, call, db.wallets[c.walletId], row, reference, ReadReversed(inserted.wagers, reference), id);
  }

  lemma ProcessIsHashed(db: Db, call: Call, id: Id)
    requires Shape(db) && ProcessWager(db, call).Ok? && id in ProcessWager(db, call).value.0.wagers
    ensures id in db.wagers || Hashed(ProcessWager(db, call).value.0.wagers[id].d.req)
  {
    hide FindIdentity;
    hide ProcessNew;
    hide Hashed;
    hide Placed;
    hide InboxClosed;
    var c := NormalizeCommand(call.cmd).value;
    if ReserveInbox(db, call.inbox) == Reserved && FindIdentity(db, c) == Absent {
      NewIsHashed(db, call, c, id);
    }
  }

  lemma RetryIsHashed(db: Db, r: Retry, id: Id)
    requires Shape(db) && RetryReference(db, r).Ok? && id in RetryReference(db, r).value.0.wagers
    ensures id in db.wagers
  {
    hide RetryOutcome;
    hide KeyIndex;
    hide InboxClosed;
    var row := Attempted(db.wagers[r.claim.transactionId]);
    var reference := ReadReference(db, row.d.req, r.seesForeign);
    RetryRow(row, db.wallets[r.claim.walletId], r, reference, ReadReversed(db.wagers, reference));
  }

  lemma StepIsHashed(db: Db, op: Op, id: Id)
    requires Shape(db) && id in Step(db, op).wagers
    ensures id in db.wagers || Hashed(Step(db, op).wagers[id].d.req)
  {
    hide ProcessWager;
    hide RetryReference;
    hide CreateWallet;
    hide Claimable;
    hide Placed;
    hide KeyIndex;
    hide ExternalIndex;
    hide InboxClosed;
    match op
    case OpCreate(o) => if CreateWallet(db, o).Ok? { var row, entries, events := CreateIs(db, o); }
    case OpProcess(call) => if ProcessWager(db, call).Ok? { ProcessIsHashed(db, call, id); }
    case OpRetry(r) => if RetryReference(db, r).Ok? { RetryIsHashed(db, r, id); }
    case _ =>
  }

  lemma {:induction false} RunIsHashed(ops: seq<Op>, id: Id)
    requires id in Run(ops).wagers
    ensures Hashed(Run(ops).wagers[id].d.req)
    decreases |ops|
  {
    if ops != [] {
      var front, op := ops[..|ops| - 1], ops[|ops| - 1];
      RunUnfolds(ops);
      hide Run;
      hide AllGood;
      hide Step;
      hide Hashed;
      hide Placed;
      hide KeyIndex;
      hide ExternalIndex;
      hide InboxClosed;
      StepIsHashed(Run(front), op, id);
      if id in Run(front).wagers {
        RunIsHashed(front, id);
        StepGrows(Run(front), op);
        assert RowGrows(Run(front).wagers[id], Run(ops).wagers[id]);
      }
    }
  }

  // ---------- frozen answers ----------

  lemma RepeatIsFound(db: Db, c: Command, id: Id)
    requires Shape(db) && id in db.wagers && db.wagers[id].d.req.kind != OPENING && Repeats(c, db.wagers[id].d)
    ensures FindIdentity(db, c) == Found(db.wagers[id].d)
  {
    assert KeyOf(db.wagers[id].d.req) in db.byKey;
  }

  /** The reply of a terminal wager, which no wallet takes part in. */
  function FrozenReply(d: WagerData): Reply {
    Reply(d.req.id, d.status, d.resultBalance, d.resultVersion, d.failureCode, true)
  }

  lemma RepeatAnswers(db: Db, call: Call, c: Command, id: Id)
    requires Shape(db) && id in db.wagers && db.wagers[id].d.req.kind != OPENING && db.wagers[id].d.status.Terminal()
    requires NormalizeCommand(call.cmd) == Ok(c) && Repeats(c, db.wagers[id].d)
    requires ReserveInbox(db, call.inbox) == Reserved || ReserveInbox(db, call.inbox) == Completed(id)
    ensures ProcessWager(db, call).Ok? && ProcessWager(db, call).value.1 == FrozenReply(db.wagers[id].d)
  {
    hide FindIdentity;
    hide ProcessNew;
    hide KeyIndex;
    hide ExternalIndex;
    hide InboxClosed;
    RepeatIsFound(db, c, id);
  }

  lemma ResultStands(db: Db, id: Id)
    requires Inv(db) && id in db.wagers && db.wagers[id].d.status.Terminal()
    ensures var a := AccountOf(db, db.wagers[id].d.req.walletId);
      ResultIsPrefix(a, db.wagers[id].d) && db.wagers[id].d.resultBalance.currency == a.wallet.balance.currency
  {
    hide AllGood;
    hide Sound;
    hide KeyIndex;
    hide ExternalIndex;
    hide InboxClosed;
    var a := AccountOf(db, db.wagers[id].d.req.walletId);
    GoodAccount(db, a.wallet.id);
    AccountStands(a, id);
  }

  lemma AccountStands(a: Account, id: Id)
    requires Sound(a) && id in a.wagers && a.wagers[id].d.status.Terminal()
    ensures ResultIsPrefix(a, a.wagers[id].d)
    ensures a.wagers[id].d.resultBalance.currency == a.wallet.balance.currency
  {
    hide Rows;
    hide Current;
    hide Backed;
    hide Posted;
    hide References;
    hide Single;
    assert ResultIsPrefix(a, a.wagers[id].d);
    var k := PrefixOf(a, a.wagers[id].d.resultVersion);
    if k > 0 { assert a.ledger[k - 1].money.currency == a.wallet.balance.currency; }
  }

  /**
   * The result of a terminal wager is in the currency of its command exactly when that is the wallet's currency: the
   * audit's rule, that it always is, fails for every wager submitted in another currency.
   */
  lemma ResultCurrency(ops: seq<Op>, id: Id)
    requires id in Run(ops).wagers && Run(ops).wagers[id].d.status.Terminal()
    ensures var db := Run(ops); var d := db.wagers[id].d;
      && d.req.walletId in db.wallets
      && (d.resultBalance.currency == d.req.money.currency <==>
        d.req.money.currency == db.wallets[d.req.walletId].balance.currency)
  {
    hide Run;
    hide AllGood;
    ResultStands(Run(ops), id);
  }

  lemma TerminalStays(ops: seq<Op>, more: seq<Op>, id: Id)
    requires id in Run(ops).wagers && Run(ops).wagers[id].d.status.Terminal()
    ensures id in Run(ops + more).wagers && Run(ops + more).wagers[id].d == Run(ops).wagers[id].d
  {
    hide Run;
    hide AllGood;
    hide Placed;
    hide KeyIndex;
    hide ExternalIndex;
    hide InboxClosed;
    RunGrows(ops, more);
    assert RowGrows(Run(ops).wagers[id], Run(ops + more).wagers[id]);
  }

  /**
   * Once a wager is terminal, every later repetition of its command, whatever was committed in between and
   * however the message arrives, gets one and the same answer: the wallet after a fixed prefix of its ledger.
   */
  lemma FrozenReplay(ops: seq<Op>, more: seq<Op>, call: Call, c: Command, id: Id)
    requires id in Run(ops).wagers && Run(ops).wagers[id].d.status.Terminal() &&
      Run(ops).wagers[id].d.req.kind != OPENING
    requires NormalizeCommand(call.cmd) == Ok(c) && Repeats(c, Run(ops).wagers[id].d)
    requires ReserveInbox(Run(ops + more), call.inbox) in {Reserved, Completed(id)}
    ensures AnswersFrozen(Run(ops + more), call, Run(ops).wagers[id].d)
  {
    hide Run;
    hide AllGood;
    hide Repeats;
    hide NormalizeCommand;
    hide ReserveInbox;
    hide AnswersFrozen;
    TerminalStays(ops, more, id);
    FrozenAnswer(Run(ops + more), call, c, id);
  }

  /** The call is answered with this wager's frozen pair, which is the wallet after a prefix of its ledger. */
  ghost predicate AnswersFrozen(db: Db, call: Call, d: WagerData)
    requires Inv(db)
  {
    && ProcessWager(db, call).Ok? && ProcessWager(db, call).value.1 == FrozenReply(d)
    && d.req.walletId in db.wallets
    && var a := AccountOf(db, d.req.walletId);
    ResultIsPrefix(a, d) && d.resultBalance.currency == a.wallet.balance.currency
  }

  lemma FrozenAnswer(db: Db, call: Call, c: Command, id: Id)
    requires Inv(db) && id in db.wagers && db.wagers[id].d.req.kind != OPENING && db.wagers[id].d.status.Terminal()
    requires NormalizeCommand(call.cmd) == Ok(c) && Repeats(c, db.wagers[id].d)
    requires ReserveInbox(db, call.inbox) in {Reserved, Completed(id)}
    ensures AnswersFrozen(db, call, db.wagers[id].d)
  {
    hide AllGood;
    hide ProcessWager;
    hide ResultIsPrefix;
    hide Repeats;
    hide NormalizeCommand;
    hide ReserveInbox;
    RepeatAnswers(db, call, c, id);
    ResultStands(db, id);
  }

  /**
   * A key is never given a second wager, and neither is an external id: two commands that share one find the same row.
   */
  lemma OneWagerPerIdentity(ops: seq<Op>, x: Id, y: Id)
    requires x in Run(ops).wagers && y in Run(ops).wagers && Run(ops).wagers[x].d.req.kind != OPENING &&
      Run(ops).wagers[y].d.req.kind != OPENING
    requires var q := Run(ops).wagers[x].d.req; var r := Run(ops).wagers[y].d.req;
      KeyOf(q) == KeyOf(r) || ExternalOf(q) == ExternalOf(r)
    ensures x == y
  {
    hide Run;
    hide AllGood;
    hide Placed;
    hide InboxClosed;
  }

  /** A processed wager with money has exactly one ledger entry, every other wager none. */
  lemma OneEntryPerWager(ops: seq<Op>, wid: Id, i: nat, j: nat)
    requires wid in Run(ops).wallets && i < |Run(ops).ledger[wid]| && j < |Run(ops).ledger[wid]|
    requires Run(ops).ledger[wid][i].transactionId == Run(ops).ledger[wid][j].transactionId
    ensures i == j
  {
    hide Run;
    hide Sound;
    hide Backed;
    hide Placed;
    hide KeyIndex;
    hide ExternalIndex;
    hide InboxClosed;
    var a := AccountOf(Run(ops), wid);
    GoodAccount(Run(ops), wid);
    assert Backed(a) by { SoundIsBacked(a); }
    EntriesDiffer(a, i, j);
  }

  lemma SoundIsBacked(a: Account)
    requires Sound(a)
    ensures Backed(a)
  {
  }

  lemma EntriesDiffer(a: Account, i: nat, j: nat)
    requires Backed(a) && i < |a.ledger| && j < |a.ledger| && a.ledger[i].transactionId == a.ledger[j].transactionId
    ensures i == j
  {
    assert Backs(a, i) && Backs(a, j);
  }
}
