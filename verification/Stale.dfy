/**
 * An interleaved run in which a replay answers with a state that the engine was never in: the wager still waiting, and
 * the wallet as that very wager left it (internal/adapters/postgres/process.go:133-145).
 */
module Stale {
  import opened Prelude
  import opened Money
  import opened Wallet
  import opened Wager
  import opened Settlement
  import opened Tables
  import opened Reachable
  import opened Runs
  import opened Interleaving
  import opened Commits
  import opened Concurrency
  import opened Solo
  import opened Scenario

  const JOB := Submit(PAYBACK, PAYBACK, None)
  const SPARE: Id := 99

  /** The answer: PENDING_REFERENCE at version 3, which the wallet reached when the wager was processed. */
  function StaleReply(): Reply { ResultOf(Waiting(), WalletWith(0, 3, T2), true) }

  // ---------- the first three transactions ----------

  function Opened(): Sys { START.(db := DB1, history := [OpCreate(OPENED)], clock := T) }

  lemma OpensFirst() returns (acts: seq<Action>)
    ensures Execute(acts) == Opened()
  {
    hide Safe;
    hide CreateWallet;
    CreatedIs();
    assert Execute([]) == START;
    Then([], Tick(T));
    Then([Tick(T)], Create(OPENED));
    assert [] + [Tick(T)] == [Tick(T)];
    acts := [Tick(T), Create(OPENED)];
    assert [Tick(T)] + [Create(OPENED)] == acts;
    assert START.history + [OpCreate(OPENED)] == [OpCreate(OPENED)];
  }

  function Answer(d: WagerData, w: WalletData): Phase { Answered(ResultOf(d, w, false)) }

  function Submitted(): Sys {
    InPhase(Opened().(db := DB2(), history := [OpCreate(OPENED), OpProcess(PAYBACK_CALL)]), 1, JOB,
      Answer(Waiting(), WalletWith(0, 1, T)))
  }

  lemma PaybackSeesNothing()
    ensures !Sees(DB1, NewWork(DB1, PAYBACK, 20, T).row) && SPARE !in DB1.wagers && Quiet(Opened().txs, 1)
  {
  }

  lemma SubmitsPayback() returns (acts: seq<Action>)
    ensures Execute(acts) == Submitted()
  {
    hide Execute;
    hide Safe;
    hide Run;
    hide AllGood;
    hide Opens;
    hide ProcessWager;
    hide ResultOf;
    hide Sees;
    hide Quiet;
    hide Placed;
    hide KeyIndex;
    hide ExternalIndex;
    hide InboxClosed;
    hide DB2;
    var before := OpensFirst();
    FirstShape();
    OrderOpens(DB1, ROLLBACK, "a", Money(5, BRL), "b", 20);
    PaybackCommits();
    PaybackSeesNothing();
    acts := SubmitAlone(before, 1, PAYBACK, PAYBACK, None, 20, T, StampsAt(T, 21), SPARE, false, DB2(),
      ResultOf(Waiting(), WalletWith(0, 1, T), false));
    assert [OpCreate(OPENED)] + [OpProcess(PAYBACK_CALL)] == [OpCreate(OPENED), OpProcess(PAYBACK_CALL)];
  }

  function Won2(): Sys {
    InPhase(Submitted().(db := DB3(), history := [OpCreate(OPENED), OpProcess(PAYBACK_CALL), OpProcess(GAIN_CALL)]), 2,
            Submit(GAIN, GAIN, None), Answer(Won(), WalletWith(5, 2, T)))
  }

  lemma GainSeesNothing()
    ensures !Sees(DB2(), NewWork(DB2(), GAIN, 30, T).row) && SPARE !in DB2().wagers && Quiet(Submitted().txs, 2)
  {
  }

  lemma SubmitsGain() returns (acts: seq<Action>)
    ensures Execute(acts) == Won2()
  {
    hide Execute;
    hide Safe;
    hide AllGood;
    hide Opens;
    hide ProcessWager;
    hide ResultOf;
    hide Sees;
    hide Quiet;
    hide Placed;
    hide KeyIndex;
    hide ExternalIndex;
    hide InboxClosed;
    hide DB3;
    var before := SubmitsPayback();
    ShapeOf(before);
    OrderOpens(DB2(), WIN, "b", Money(5, BRL), "", 30);
    GainCommits();
    GainSeesNothing();
    acts := SubmitAlone(before, 2, GAIN, GAIN, None, 30, T, StampsAt(T, 31), SPARE, false, DB3(),
      ResultOf(Won(), WalletWith(5, 2, T), false));
    assert Submitted().history + [OpProcess(GAIN_CALL)] == Won2().history;
  }

  lemma ShapeOf(acts: seq<Action>)
    ensures Shape(Execute(acts).db)
  {
    hide Execute;
    hide AllGood;
    hide AllFit;
    hide AllApart;
    hide Run;
  }

  // ---------- the claim, and a repetition that has read the waiting wager ----------

  function Taken(): Sys {
    Won2().(db := DB4(),
      history := [OpCreate(OPENED), OpProcess(PAYBACK_CALL), OpProcess(GAIN_CALL), OpClaim(20, CLAIM, T2)],
            clock := T2, taken := map[40 := Issue(T2, LEASE)])
  }

  lemma NobodyLocks(s: Sys, id: Id)
    requires forall u :: u in s.txs ==> s.txs[u].Over()
    ensures !SomeoneLocksRow(s, id) && !SomeoneSharesRow(s, id)
  {
  }

  function Waited(): Sys { Won2().(clock := T2) }

  lemma Waits() returns (acts: seq<Action>)
    ensures Execute(acts) == Waited()
  {
    hide Execute;
    hide Safe;
    hide DB3;
    hide Waiting;
    hide Won;
    hide ResultOf;
    var before := SubmitsGain();
    Then(before, Tick(SECOND));
    acts := before + [Tick(SECOND)];
  }

  lemma Claims() returns (acts: seq<Action>)
    ensures Execute(acts) == Taken()
  {
    hide Execute;
    hide Safe;
    hide Shape;
    hide SomeoneLocksRow;
    hide SomeoneSharesRow;
    hide ClaimReference;
    hide DB3;
    hide DB4;
    hide Waiting;
    hide Won;
    hide ResultOf;
    var before := Waits();
    var claim := ClaimWaiting(20, "w", 40, LEASE);
    Then(before, claim);
    var s := Execute(before);
    ShapeOf(before);
    NobodyLocks(s, 20);
    ClaimTakes();
    assert s.history + [OpClaim(20, CLAIM, T2)] == Taken().history;
    assert s.taken[40 := Issue(T2, LEASE)] == Taken().taken;
    acts := before + [claim];
  }

  function Read(): Sys { InPhase(Taken(), 3, JOB, Replaying(Waiting(), None)) }

  lemma AnsweredIsIdle(txs: map<nat, Tx>, tid: nat, job: Job, reply: Reply, other: nat)
    requires Quiet(txs, other)
    ensures Quiet(txs[tid := Tx(job, Answered(reply))], other)
  {
  }

  /** The repetition, before it writes, holds no lock. */
  lemma ReplayingIsIdle(txs: map<nat, Tx>, tid: nat, d: WagerData, other: nat)
    requires Quiet(txs, other)
    ensures Quiet(txs[tid := Tx(JOB, Replaying(d, None))], other)
  {
  }

  lemma Keeps(txs: map<nat, Tx>, tid: nat)
    requires txs == map[]
    ensures Quiet(txs, tid)
  {
  }

  lemma QuietTaken(tid: nat)
    ensures Quiet(Taken().txs, tid)
  {
    hide Quiet;
    hide Waiting;
    hide Won;
    hide ResultOf;
    hide DB2;
    hide DB3;
    hide DB4;
    Keeps(Opened().txs, tid);
    AnsweredIsIdle(Opened().txs, 1, JOB, ResultOf(Waiting(), WalletWith(0, 1, T), false), tid);
    AnsweredIsIdle(Submitted().txs, 2, Submit(GAIN, GAIN, None), ResultOf(Won(), WalletWith(5, 2, T), false), tid);
  }

  lemma QuietRead(tid: nat)
    ensures Quiet(Read().txs, tid)
  {
    hide Quiet;
    hide Waiting;
    hide Taken;
    QuietTaken(tid);
    ReplayingIsIdle(Taken().txs, 3, Waiting(), tid);
  }

  lemma SpareIsUnused()
    ensures SPARE !in DB4().wagers && SPARE !in DB5().wagers
  {
    hide Waiting;
    hide Won;
    hide PaidBack;
    hide WonEvents;
    hide PaidEvents;
  }

  lemma WaitingIsNamed()
    ensures ("p", "a") in DB4().byKey && DB4().byKey[("p", "a")] == 20 && 20 in DB4().wagers &&
      DB4().wagers[20].d == Waiting()
  {
    hide Waiting;
    hide Won;
  }

  lemma WaitingIsFound(db: Db)
    requires Shape(db) && ("p", "a") in db.byKey && db.byKey[("p", "a")] == 20 && db.wagers[20].d.req == Waiting().req
    ensures FindIdentity(db, PAYBACK) == Found(db.wagers[20].d)
  {
  }

  lemma RepetitionReads(db: Db, at: Time, clock: Time)
    requires Shape(db) && ("p", "a") in db.byKey && db.byKey[("p", "a")] == 20 && db.wagers[20].d == Waiting()
    ensures TxFits(db, Tx(JOB, Begun)) ==> NextPhase(db, Tx(JOB, Begun), SPARE, at, clock) == Phase.Reserved
    ensures TxFits(db, Tx(JOB, Phase.Reserved)) ==>
      NextPhase(db, Tx(JOB, Phase.Reserved), SPARE, at, clock) == Replaying(Waiting(), None)
  {
    hide Placed;
    hide KeyIndex;
    hide ExternalIndex;
    hide InboxClosed;
    hide NormalizeCommand;
    hide FindIdentity;
    hide ValidMessage;
    WaitingIsFound(db);
  }

  lemma Begins() returns (acts: seq<Action>)
    ensures Execute(acts) == InPhase(Taken(), 3, JOB, Begun)
  {
    hide Execute;
    hide Safe;
    hide NormalizeCommand;
    hide DB4;
    hide Waiting;
    hide Won;
    hide ResultOf;
    var before := Claims();
    OrderIsNormal(ROLLBACK, "a", Money(5, BRL), "b");
    BeginsAt(before, 3, PAYBACK, PAYBACK, None);
    acts := before + [Begin(3, PAYBACK, None)];
  }

  lemma TakenTables()
    ensures Taken().db == DB4()
  {
    hide DB4;
    hide Waiting;
    hide Won;
    hide ResultOf;
  }

  lemma Reads() returns (acts: seq<Action>)
    ensures Execute(acts) == Read()
  {
    hide Execute;
    hide TxFits;
    hide NextPhase;
    hide Quiet;
    hide Shape;
    hide DB4;
    hide Waiting;
    hide Taken;
    var before := Begins();
    ShapeOf(before);
    QuietTaken(3);
    SpareIsUnused();
    WaitingIsNamed();
    TakenTables();
    var s := Taken();
    RepetitionReads(s.db, T, s.clock);
    var acts1 := GoesOn(before, s, 3, JOB, Begun, Phase.Reserved, SPARE, T);
    acts := GoesOn(acts1, s, 3, JOB, Phase.Reserved, Replaying(Waiting(), None), SPARE, T);
  }

  // ---------- the retry goes first, then the repetition answers ----------

  function Resolved(): Sys {
    InPhase(Read().(db := DB5(), history := Taken().history + [OpRetry(TRY)]), 4,
            Resolve(TRY.claim, TRY.maxAttempts, TRY.ttl), Answer(PaidBack(), WalletWith(0, 3, T2)))
  }

  lemma RetryIsReady()
    ensures Claimed(DB4().wagers[20], TRY.claim, TRY.clock) && RetrySees(DB4(), Waiting().req)
  {
  }

  lemma Resolves() returns (acts: seq<Action>)
    ensures Execute(acts) == Resolved()
  {
    hide Execute;
    hide Safe;
    hide Quiet;
    hide Shape;
    hide RetryReference;
    hide Claimed;
    hide RetrySees;
    hide ResultOf;
    hide DB5;
    var before := Reads();
    ShapeOf(before);
    QuietRead(4);
    SpareIsUnused();
    RetryIsReady();
    RetryCommits();
    assert AtServer(Read(), StampsAt(T2, 51)) == TRY.stamps;
    acts := RetryAlone(before, 4, TRY, StampsAt(T2, 51), SPARE, DB5(),
      ResultOf(PaidBack(), WalletWith(0, 3, T2), false));
  }

  function Closed(): Sys { InPhase(Resolved(), 3, JOB, Closing(Waiting(), None, WalletWith(0, 3, T2))) }

  lemma QuietResolved()
    ensures Quiet(Resolved().txs, 3)
    ensures Resolved() == InPhase(Resolved(), 3, JOB, Replaying(Waiting(), None))
  {
    hide Quiet;
    hide Waiting;
    hide PaidBack;
    hide ResultOf;
    hide Taken;
    hide DB5;
    QuietRead(3);
    var retry := Resolve(TRY.claim, TRY.maxAttempts, TRY.ttl);
    AnsweredIsIdle(Read().txs, 4, retry, ResultOf(PaidBack(), WalletWith(0, 3, T2), false), 3);
    assert Resolved().txs[3 := Tx(JOB, Replaying(Waiting(), None))] == Resolved().txs;
  }

  lemma RepetitionGoesOn(db: Db, at: Time, clock: Time)
    requires Shape(db) && WALLET in db.wallets && db.wallets[WALLET] == WalletWith(0, 3, T2)
    ensures var w := WalletWith(0, 3, T2);
      && (TxFits(db, Tx(JOB, Replaying(Waiting(), None))) ==>
            NextPhase(db, Tx(JOB, Replaying(Waiting(), None)), SPARE, at, clock) == Replayed(Waiting(), None, w))
      && (TxFits(db, Tx(JOB, Replayed(Waiting(), None, w))) ==>
            NextPhase(db, Tx(JOB, Replayed(Waiting(), None, w)), SPARE, at, clock) == Closing(Waiting(), None, w))
  {
    hide TxFits;
    hide KeyIndex;
    hide ExternalIndex;
    hide InboxClosed;
  }

  lemma WalletAfter()
    ensures WALLET in DB5().wallets && DB5().wallets[WALLET] == WalletWith(0, 3, T2)
  {
    hide Waiting;
    hide Won;
    hide PaidBack;
    hide WonEvents;
    hide PaidEvents;
  }

  lemma ResolvedTables()
    ensures Resolved().db == DB5()
  {
    hide Quiet;
    hide Waiting;
    hide PaidBack;
    hide ResultOf;
    hide Taken;
    hide DB5;
  }

  lemma Rereads() returns (acts: seq<Action>)
    ensures Execute(acts) == InPhase(Resolved(), 3, JOB, Replayed(Waiting(), None, WalletWith(0, 3, T2)))
  {
    hide Execute;
    hide TxFits;
    hide NextPhase;
    hide Quiet;
    hide Shape;
    hide DB5;
    hide Resolved;
    hide Waiting;
    var before := Resolves();
    ShapeOf(before);
    QuietResolved();
    SpareIsUnused();
    WalletAfter();
    ResolvedTables();
    var s, w := Resolved(), WalletWith(0, 3, T2);
    RepetitionGoesOn(s.db, T, s.clock);
    acts := GoesOn(before, s, 3, JOB, Replaying(Waiting(), None), Replayed(Waiting(), None, w), SPARE, T);
  }

  lemma Closes() returns (acts: seq<Action>)
    ensures Execute(acts) == Closed()
  {
    hide Execute;
    hide TxFits;
    hide NextPhase;
    hide Quiet;
    hide Shape;
    hide DB5;
    hide Resolved;
    hide Waiting;
    var before := Rereads();
    ShapeOf(before);
    QuietResolved();
    SpareIsUnused();
    WalletAfter();
    ResolvedTables();
    var s, w := Resolved(), WalletWith(0, 3, T2);
    RepetitionGoesOn(s.db, T, s.clock);
    acts := GoesOn(before, s, 3, JOB, Replayed(Waiting(), None, w), Closing(Waiting(), None, w), SPARE, T);
  }

  lemma ReplyIsStale(st: Stamps)
    requires Shape(DB5()) && TxFits(DB5(), Tx(JOB, Closing(Waiting(), None, WalletWith(0, 3, T2))))
    ensures Effects(DB5(), Tx(JOB, Closing(Waiting(), None, WalletWith(0, 3, T2))), st, NO_TIME, NO_TIME) ==
      Ok((DB5(), StaleReply()))
  {
    hide Shape;
    hide TxFits;
    hide DB5;
    hide Waiting;
  }

  function End(st: Stamps): Sys {
    var s := Resolved();
    var tx := Tx(JOB, Closing(Waiting(), None, WalletWith(0, 3, T2)));
    InPhase(s.(history := s.history + [Serial(tx, AtServer(s, st), NO_TIME, NO_TIME)]), 3, JOB, Answered(StaleReply()))
  }

  lemma Answers(st: Stamps) returns (acts: seq<Action>)
    ensures Execute(acts) == End(st)
  {
    hide Execute;
    hide Effects;
    hide TxFits;
    hide Shape;
    hide DB5;
    hide Read;
    hide Waiting;
    hide PaidBack;
    hide ResultOf;
    hide Serial;
    var before := Closes();
    ShapeOf(before);
    Fits(Execute(before), 3);
    var s := Resolved();
    ReplyIsStale(AtServer(s, st));
    CommitsAt(before, s, 3, JOB, Closing(Waiting(), None, WalletWith(0, 3, T2)), st, NO_TIME, NO_TIME, DB5(),
      StaleReply());
    acts := before + [Commit(3, st, NO_TIME, NO_TIME, true)];
  }

  // ---------- no moment of the run gives that answer ----------

  /** A command that is new to the tables is not answered as a replay. */
  lemma NewIsNoReplay(db: Db, call: Call)
    requires Shape(db) && call.cmd == PAYBACK && call.inbox == None && FindIdentity(db, PAYBACK) == Absent
    ensures ProcessWager(db, call).Ok? ==> ProcessWager(db, call).value.1 != StaleReply()
  {
    hide FindIdentity;
    hide Shape;
    hide NormalizeCommand;
    hide Settle;
    hide Post;
    hide Persist;
    hide Insert;
    hide NewWager;
    hide Waiting;
    OrderIsNormal(ROLLBACK, "a", Money(5, BRL), "b");
  }

  /** A command whose wager is stored is answered from the stored row and wallet. */
  lemma FoundIsAnswered(db: Db, call: Call, d: WagerData)
    requires Shape(db) && call.cmd == PAYBACK && call.inbox == None && FindIdentity(db, PAYBACK) == Found(d)
    requires d.req.walletId == WALLET && WALLET in db.wallets
    ensures ProcessWager(db, call) == Ok((db, ResultOf(d, db.wallets[WALLET], true)))
  {
    hide FindIdentity;
    hide Shape;
    hide NormalizeCommand;
    hide ResultOf;
    OrderIsNormal(ROLLBACK, "a", Money(5, BRL), "b");
  }

  /** Nobody who submits the command to these tables gets the stale answer. */
  ghost predicate Elsewhere(db: Db)
    requires Shape(db)
  {
    forall call: Call {:trigger ProcessWager(db, call)} ::
      call.cmd == PAYBACK && call.inbox == None && ProcessWager(db, call).Ok? ==>
        ProcessWager(db, call).value.1 != StaleReply()
  }

  lemma BeforePayback(db: Db)
    requires Shape(db) && ("p", "a") !in db.byKey && ("p", "a") !in db.byExternal
    ensures Elsewhere(db)
  {
    hide StaleReply;
    hide ProcessWager;
    hide Placed;
    hide KeyIndex;
    hide ExternalIndex;
    hide InboxClosed;
    forall call: Call | call.cmd == PAYBACK && call.inbox == None && ProcessWager(db, call).Ok?
      ensures ProcessWager(db, call).value.1 != StaleReply()
    {
      NewIsNoReplay(db, call);
    }
  }

  lemma AfterPayback(db: Db, d: WagerData, w: WalletData)
    requires Shape(db) && ("p", "a") in db.byKey && db.byKey[("p", "a")] == 20 && 20 in db.wagers &&
      db.wagers[20].d == d
    requires d.req == Waiting().req && WALLET in db.wallets && db.wallets[WALLET] == w
    requires d.status == PROCESSED || (d.status == PENDING_REFERENCE && w.version != 3)
    ensures Elsewhere(db)
  {
    hide ProcessWager;
    hide Shape;
    hide FindIdentity;
    hide Placed;
    hide KeyIndex;
    hide ExternalIndex;
    hide InboxClosed;
    WaitingIsFound(db);
    forall call: Call | call.cmd == PAYBACK && call.inbox == None && ProcessWager(db, call).Ok?
      ensures ProcessWager(db, call).value.1 != StaleReply()
    {
      FoundIsAnswered(db, call, d);
    }
  }

  lemma RunIs(acts: seq<Action>)
    ensures Execute(acts).db == Run(Execute(acts).history)
  {
    hide Execute;
    hide Inv;
    hide AllFit;
    hide AllApart;
    hide Run;
  }

  /** The tables after k transactions. */
  function Moment(k: nat): Db {
    if k == 0 then EMPTY else if k == 1 then DB1 else if k == 2 then DB2() else if k == 3 then DB3()
      else if k == 4 then DB4() else DB5()
  }

  lemma MomentIs(st: Stamps, k: nat)
    requires k <= 6
    ensures |End(st).history| == 6 && Run(End(st).history[..k]) == Moment(k)
  {
    hide Execute;
    hide Run;
    hide DB2;
    hide DB3;
    hide DB4;
    hide DB5;
    hide Waiting;
    hide Won;
    hide PaidBack;
    hide ResultOf;
    hide Serial;
    var history := End(st).history;
    if k == 0 {
      assert history[..0] == [];
      EmptyRun();
    } else {
      var acts;
      if k == 1 { acts := OpensFirst(); }
      else if k == 2 { acts := SubmitsPayback(); }
      else if k == 3 { acts := SubmitsGain(); }
      else if k == 4 { acts := Claims(); }
      else if k == 5 { acts := Resolves(); }
      else { acts := Answers(st); }
      RunIs(acts);
      assert Execute(acts).history == history[..k];
    }
  }

  lemma EmptyRun()
    ensures Run([]) == EMPTY
  {
  }

  lemma MomentsDiffer(k: nat)
    requires Shape(Moment(k))
    ensures Elsewhere(Moment(k))
  {
    hide Elsewhere;
    hide Shape;
    var db := Moment(k);
    if k <= 1 {
      BeforePayback(db);
    } else {
      AfterPayback(db, db.wagers[20].d, db.wallets[WALLET]);
    }
  }

  /**
   * A run in which a repeated command is answered, and at no moment of that run would a transaction with the same
   * command have been given that answer.
   */
  lemma AnswerOfNoMoment(st: Stamps) returns (acts: seq<Action>)
    ensures var s := Execute(acts);
      && 3 in s.txs && s.txs[3] == Tx(JOB, Answered(StaleReply()))
      && forall k :: 0 <= k <= |s.history| ==> Elsewhere(Run(s.history[..k]))
  {
    hide Execute;
    hide Run;
    hide Elsewhere;
    hide Shape;
    hide Moment;
    acts := Answers(st);
    var s := Execute(acts);
    forall k | 0 <= k <= |s.history| ensures Elsewhere(Run(s.history[..k])) {
      MomentIs(st, 0);
      MomentIs(st, k);
      MomentsDiffer(k);
    }
  }
}
