/** An interleaved run in which a command is refused for a reason that is no longer the first one (process.go:57-60). */
module Overtaken {
  import opened Prelude
  import opened Money
  import opened Wager
  import opened Tables
  import opened Reachable
  import opened Runs
  import opened Interleaving
  import opened Concurrency
  import opened Solo
  import opened Scenario
  import opened Stale

  /** The ROLLBACK of the other runs, sent to a wallet that does not exist. */
  const LOST := PAYBACK.(walletId := 77)
  const LOST_JOB := Submit(LOST, LOST, None)

  lemma LostIsNormal()
    ensures NormalizeCommand(LOST) == Ok(LOST)
  {
    OrderIsNormal(ROLLBACK, "a", Money(5, BRL), "b");
  }

  /** After it has looked for its identity, and found nothing. */
  function Looking(): Sys { InPhase(Opened(), 5, LOST_JOB, Missed) }

  lemma LooksInVain(db: Db, at: Time, clock: Time)
    requires Shape(db) && ("p", "a") !in db.byKey && ("p", "a") !in db.byExternal
    ensures TxFits(db, Tx(LOST_JOB, Begun)) ==>
      NextPhase(db, Tx(LOST_JOB, Begun), SPARE, at, clock) == Phase.Reserved
    ensures TxFits(db, Tx(LOST_JOB, Phase.Reserved)) ==>
      NextPhase(db, Tx(LOST_JOB, Phase.Reserved), SPARE, at, clock) == Missed
  {
    hide TxFits;
    hide Placed;
    hide InboxClosed;
  }

  lemma OpenedTables()
    ensures Opened().db == DB1 && Opened().clock == T && 5 !in Opened().txs
  {
  }

  lemma Looks() returns (acts: seq<Action>)
    ensures Execute(acts) == Looking()
  {
    hide Execute;
    hide TxFits;
    hide NextPhase;
    hide NormalizeCommand;
    hide Quiet;
    hide Shape;
    var before := OpensFirst();
    ShapeOf(before);
    LostIsNormal();
    LooksInVain(DB1, T, T);
    Keeps(Opened().txs, 5);
    OpenedTables();
    hide Opened;
    BeginsAt(before, 5, LOST, LOST, None);
    var acts1 := GoesOn(before + [Begin(5, LOST, None)], Opened(), 5, LOST_JOB, Begun, Phase.Reserved, SPARE, T);
    acts := GoesOn(acts1, Opened(), 5, LOST_JOB, Phase.Reserved, Missed, SPARE, T);
  }

  /** Then the ROLLBACK itself is committed. */
  function Overtook(): Sys {
    InPhase(Looking().(db := DB2(), history := [OpCreate(OPENED), OpProcess(PAYBACK_CALL)]), 1, JOB,
      Answer(Waiting(), WalletWith(0, 1, T)))
  }

  lemma LookingIsIdle()
    ensures Quiet(Looking().txs, 1) && !Sees(DB1, NewWork(DB1, PAYBACK, 20, T).row)
  {
  }

  lemma LookingTables()
    ensures Looking().db == DB1 && Looking().clock == T && Looking().history == [OpCreate(OPENED)]
    ensures 1 !in Looking().txs
  {
  }

  lemma Overtakes() returns (acts: seq<Action>)
    ensures Execute(acts) == Overtook()
  {
    hide Safe;
    hide AllGood;
    hide Opened;
    hide Execute;
    hide Run;
    hide Opens;
    hide ProcessWager;
    hide ResultOf;
    hide Sees;
    hide Quiet;
    hide Shape;
    hide DB2;
    hide Waiting;
    var before := Looks();
    FirstIsShaped();
    LookingTables();
    OrderOpens(DB1, ROLLBACK, "a", Money(5, BRL), "b", 20);
    PaybackCommits();
    LookingIsIdle();
    hide Looking;
    assert AtServer(Looking(), StampsAt(T, 21)) == StampsAt(T, 21);
    acts := SubmitAlone(before, 1, PAYBACK, PAYBACK, None, 20, T, StampsAt(T, 21), SPARE, false, DB2(),
      ResultOf(Waiting(), WalletWith(0, 1, T), false));
    assert [OpCreate(OPENED)] + [OpProcess(PAYBACK_CALL)] == [OpCreate(OPENED), OpProcess(PAYBACK_CALL)];
  }

  lemma OvertookIsIdle()
    ensures Quiet(Overtook().txs, 5) && SPARE !in DB2().wagers
    ensures Overtook() == InPhase(Overtook(), 5, LOST_JOB, Missed)
  {
    assert Overtook().txs[5 := Tx(LOST_JOB, Missed)] == Overtook().txs;
  }

  lemma LosesItsWallet(db: Db, at: Time, clock: Time)
    requires Shape(db) && LOST.walletId !in db.wallets
    ensures TxFits(db, Tx(LOST_JOB, Missed)) ==>
      NextPhase(db, Tx(LOST_JOB, Missed), SPARE, at, clock) == Phase.Failed(NOT_FOUND)
  {
    hide TxFits;
    hide Placed;
    hide KeyIndex;
    hide ExternalIndex;
    hide InboxClosed;
  }

  lemma KeyIsTaken(db: Db, call: Call)
    requires Shape(db) && ("p", "a") in db.byKey && db.byKey[("p", "a")] == 20 && 20 in db.wagers
    requires db.wagers[20].d.req == Waiting().req && call.cmd == LOST && call.inbox == None
    ensures ProcessWager(db, call) == Fail(IDEMPOTENCY_KEY_REUSED)
  {
    hide NormalizeCommand;
    hide ProcessNew;
    hide Placed;
    hide InboxClosed;
    LostIsNormal();
  }

  lemma RowIsThere()
    ensures ("p", "a") in DB2().byKey && DB2().byKey[("p", "a")] == 20 && 20 in DB2().wagers
    ensures DB2().wagers[20].d == Waiting() && LOST.walletId !in DB2().wallets && SPARE !in DB2().wagers
  {
    hide Waiting;
  }

  /**
   * A run that ends with a refusal for the missing wallet, at a moment at which the same command, submitted anew, would
   * be refused for its reused key.
   */
  lemma RefusedOtherwise() returns (acts: seq<Action>)
    ensures 5 in Execute(acts).txs && Execute(acts).txs[5] == Tx(LOST_JOB, Phase.Failed(NOT_FOUND))
    ensures forall call: Call :: call.cmd == LOST && call.inbox == None ==>
      ProcessWager(Execute(acts).db, call) == Fail(IDEMPOTENCY_KEY_REUSED)
  {
    hide Execute;
    hide TxFits;
    hide NextPhase;
    hide NormalizeCommand;
    hide ProcessWager;
    hide Quiet;
    hide Shape;
    hide DB2;
    hide Waiting;
    var before := Overtakes();
    ShapeOf(before);
    OvertookIsIdle();
    RowIsThere();
    LosesItsWallet(DB2(), T, T);
    var s := Overtook();
    acts := GoesOn(before, s, 5, LOST_JOB, Missed, Phase.Failed(NOT_FOUND), SPARE, T);
    forall call: Call | call.cmd == LOST && call.inbox == None
      ensures ProcessWager(Execute(acts).db, call) == Fail(IDEMPOTENCY_KEY_REUSED)
    {
      KeyIsTaken(DB2(), call);
    }
  }
}
