/**
 * Concrete transactions and the tables they leave: a rejection in the wallet's currency, and the transactions of the
 * run in Stale.
 */
module Scenario {
  import opened Prelude
  import opened Money
  import opened Wallet
  import opened Wager
  import opened Ledger
  import opened Settlement
  import opened Tables
  import opened Reachable
  import opened Runs
  import opened Commits
  import opened Solo
  import Store

  // ---------- the rows ----------

  const T: Time := 100
  const PLAYER: Id := 1
  const WALLET: Id := 2
  const TRACE := Trace("c", "")

  function StampsAt(now: Time, first: Id): Stamps { Stamps(now, now, first, first + 1, first + 2) }

  const OPENED := Opening(PLAYER, Money(0, BRL), "c", WALLET, 3, T, StampsAt(T, 4))

  function WalletWith(minor: int64, version: int64, at: Time): WalletData {
    WalletData(WALLET, PLAYER, Money(minor, BRL), version, T, at)
  }

  /** The wallet just created. */
  const DB1 := Db(map[WALLET := WalletWith(0, 1, T)], map[], map[], map[], map[WALLET := []], map[WALLET := []], map[])

  function Order(kind: Kind, external: string, money: Money, refExternal: string): Command {
    Command("p", external, external, PLAYER, WALLET, "r", "g", Some(kind), money, refExternal, TRACE)
  }

  lemma NotBlank(s: string)
    requires s != "" && !IsSpace(s[0])
    ensures !Blank(s)
  {
    assert s[0] in s;
  }

  lemma OrderIsNormal(kind: Kind, external: string, money: Money, refExternal: string)
    requires external in {"a", "b"} && refExternal in {"", "b"} && money.Valid() && money.minor >= 0
    requires kind != OPENING && (IsReversal(kind) ==> refExternal != "")
    ensures NormalizeCommand(Order(kind, external, money, refExternal)) == Ok(Order(kind, external, money, refExternal))
  {
  }

  lemma CreatedIs()
    ensures CreateWallet(EMPTY, OPENED) == Ok(DB1)
  {
  }

  // ---------- another currency ----------

  const FOREIGN := Order(WIN, "a", Money(5, USD), "")
  const FOREIGN_CALL := Call(FOREIGN, None, 20, T, StampsAt(T, 21), false)

  lemma RequestIsValid(kind: Kind, external: string, money: Money, refExternal: string, id: Id)
    requires external in {"a", "b"} && refExternal in {"", "b"} && money.Valid() && money.minor >= 0 && id != NO_ID
    requires kind in {WIN, ROLLBACK} && (IsReversal(kind) ==> refExternal != "")
    ensures ValidRequest(RequestOf(Order(kind, external, money, refExternal), id, T))
  {
    NotBlank("p");
    NotBlank("r");
    NotBlank("g");
    NotBlank(external);
    if refExternal != "" { NotBlank(refExternal); }
  }

  /** What a new command without a message commits, from what it settles to. */
  lemma OrderCommits(db: Db, call: Call, c: Command, out: Outcome)
    requires Opens(db, call.cmd, c, call.id, call.createdAt) && call.inbox == None
    requires var row := NewWork(db, c, call.id, call.createdAt).row; var inserted := Insert(db, row);
      && ExternalIndex(inserted.wagers, inserted.byExternal)
      && var reference := ReadReference(inserted, row.d.req, call.seesForeign);
      Settle(db.wallets[c.walletId], row.d, row.trace, reference, ReadReversed(inserted.wagers, reference), false,
        call.stamps) == Ok(out)
    ensures out.wallet.id == c.walletId && c.walletId in db.ledger && c.walletId in db.outbox
    ensures var row := NewWork(db, c, call.id, call.createdAt).row;
      ProcessWager(db, call) ==
        Ok((Post(Insert(db, row), Persist(row, out.wager, call.stamps.dbNow), out),
          ResultOf(out.wager, out.wallet, false)))
  {
    hide NormalizeCommand;
    hide FindIdentity;
    hide Settle;
    hide NewWager;
    hide Post;
    hide Persist;
    hide Placed;
    hide InboxClosed;
    hide ProcessNew;
    hide Finish;
    var row := NewWork(db, c, call.id, call.createdAt).row;
    var inserted := Insert(db, row);
    var w := db.wallets[c.walletId];
    var reference := ReadReference(inserted, row.d.req, call.seesForeign);
    var reversed := ReadReversed(inserted.wagers, reference);
    InsertedShape(db, row, c, call);
    ReachesNew(db, call, c);
    ReachesFinish(db, call, c, w, row);
    Store.FinishUnfolds(db, call, w, row, reference, reversed);
  }

  lemma InsertedShape(db: Db, row: WagerRow, c: Command, call: Call)
    requires Opens(db, call.cmd, c, call.id, call.createdAt) && row == NewWork(db, c, call.id, call.createdAt).row
    ensures Shape(Insert(db, row)) && ReserveInbox(db, None) == Tables.Reserved
  {
    hide NormalizeCommand;
    hide ValidWager;
    hide Placed;
    hide InboxClosed;
    Store.NewWagerKeeps(row.d.req);
    InsertShape(db, row);
  }

  lemma IndexOf(db: Db)
    requires Shape(db)
    ensures ExternalIndex(db.wagers, db.byExternal)
  {
  }

  /** The order is normal, valid and new. */
  lemma OrderOpens(db: Db, kind: Kind, external: string, money: Money, refExternal: string, id: Id)
    requires Shape(db) && external in {"a", "b"} && refExternal in {"", "b"} && money.Valid() && money.minor >= 0 &&
      id != NO_ID
    requires kind in {WIN, ROLLBACK} && (IsReversal(kind) ==> refExternal != "")
    requires ("p", external) !in db.byKey && ("p", external) !in db.byExternal && id !in db.wagers
    requires WALLET in db.wallets && db.wallets[WALLET].playerId == PLAYER
    ensures var order := Order(kind, external, money, refExternal); Opens(db, order, order, id, T)
    ensures ValidWager(Fresh(RequestOf(Order(kind, external, money, refExternal), id, T)))
  {
    hide ValidRequest;
    hide Blank;
    hide Placed;
    hide KeyIndex;
    hide ExternalIndex;
    hide InboxClosed;
    OrderIsNormal(kind, external, money, refExternal);
    RequestIsValid(kind, external, money, refExternal, id);
  }

  // ---------- another currency, continued ----------

  function Rejected(d: WagerData, code: Code, w: WalletData, now: Time): WagerData {
    Changed(d, ToRejected(code, w.balance, w.version), now)
  }

  lemma FirstShape()
    ensures Inv(DB1) && Run([OpCreate(OPENED)]) == DB1
  {
    CreatedIs();
    assert Run([]) == EMPTY;
    assert [OpCreate(OPENED)][..0] == [];
    RunUnfolds([OpCreate(OPENED)]);
  }

  lemma FirstIsShaped()
    ensures Shape(DB1)
  {
    hide Run;
    hide AllGood;
    FirstShape();
  }

  function ForeignOutcome(): Outcome {
    var row, w := NewWork(DB1, FOREIGN, 20, T).row, WalletWith(0, 1, T);
    var d := Rejected(row.d, CURRENCY_MISMATCH, w, T);
    Outcome(w, d, None, [WagerEvent(MetaOf(22, TRACE, T), d)])
  }

  lemma ForeignSettles()
    ensures var row := NewWork(DB1, FOREIGN, 20, T).row;
      Settle(WalletWith(0, 1, T), row.d, row.trace, None, false, false, FOREIGN_CALL.stamps) == Ok(ForeignOutcome())
  {
    hide ValidRequest;
    hide Blank;
    RequestIsValid(WIN, "a", Money(5, USD), "", 20);
    NotBlank("c");
  }

  lemma ForeignPosts()
    ensures var row := NewWork(DB1, FOREIGN, 20, T).row;
      var db := Post(Insert(DB1, row), Persist(row, ForeignOutcome().wager, T), ForeignOutcome());
      20 in db.wagers && db.wagers[20].d == Rejected(row.d, CURRENCY_MISMATCH, WalletWith(0, 1, T), T)
  {
  }

  lemma ForeignCommits()
    ensures Shape(DB1) && ProcessWager(DB1, FOREIGN_CALL).Ok?
    ensures var db := ProcessWager(DB1, FOREIGN_CALL).value.0;
      20 in db.wagers &&
        db.wagers[20].d == Rejected(NewWork(DB1, FOREIGN, 20, T).row.d, CURRENCY_MISMATCH, WalletWith(0, 1, T), T)
  {
    hide ProcessWager;
    hide Settle;
    hide Opens;
    hide Shape;
    hide Post;
    hide Persist;
    hide ResultOf;
    hide Rejected;
    FirstIsShaped();
    OrderOpens(DB1, WIN, "a", Money(5, USD), "", 20);
    ForeignSettles();
    ForeignPosts();
    var row := NewWork(DB1, FOREIGN, 20, T).row;
    InsertedShape(DB1, row, FOREIGN, FOREIGN_CALL);
    IndexOf(Insert(DB1, row));
    OrderCommits(DB1, FOREIGN_CALL, FOREIGN, ForeignOutcome());
  }

  const FOREIGN_RUN := [OpCreate(OPENED), OpProcess(FOREIGN_CALL)]

  /** A command in another currency is rejected, and its result is in the wallet's currency. */
  lemma MismatchStoresWalletCurrency()
    ensures var db := Run(FOREIGN_RUN);
      && 20 in db.wagers && db.wagers[20].d.status == REJECTED && db.wagers[20].d.failureCode == CURRENCY_MISMATCH
      && db.wagers[20].d.req.money.currency == USD && db.wagers[20].d.resultBalance.currency == BRL
  {
    hide Run;
    hide ProcessWager;
    hide Inv;
    FirstShape();
    ForeignCommits();
    assert FOREIGN_RUN[..1] == [OpCreate(OPENED)];
    RunUnfolds(FOREIGN_RUN);
  }

  // ---------- a replay that belongs to no moment ----------

  const PAYBACK := Order(ROLLBACK, "a", Money(5, BRL), "b")
  const GAIN := Order(WIN, "b", Money(5, BRL), "")
  const PAYBACK_CALL := Call(PAYBACK, None, 20, T, StampsAt(T, 21), false)
  const GAIN_CALL := Call(GAIN, None, 30, T, StampsAt(T, 31), false)

  function RequestFor(c: Command, id: Id): Request
    requires c.kind.Some?
  {
    RequestOf(c, id, T)
  }

  /** The ROLLBACK waits for the wager it names. */
  function Waiting(): WagerData { Changed(Fresh(RequestFor(PAYBACK, 20)), ToPendingReference, T) }

  function WaitingRow(): WagerRow { WagerRow(Waiting(), TRACE, 0, Some(T + SECOND), None) }

  function WaitingEvent(): Event { WagerEvent(MetaOf(22, TRACE, T), Waiting()) }

  /** After the ROLLBACK was submitted. */
  function DB2(): Db {
    Db(map[WALLET := WalletWith(0, 1, T)], map[20 := WaitingRow()], map[("p", "a") := 20], map[("p", "a") := 20],
       map[WALLET := []], map[WALLET := [WaitingEvent()]], map[])
  }

  lemma PaybackSettles()
    ensures var d := Fresh(RequestFor(PAYBACK, 20));
      Settle(WalletWith(0, 1, T), d, TRACE, None, false, false, PAYBACK_CALL.stamps) ==
        Ok(Outcome(WalletWith(0, 1, T), Waiting(), None, [WaitingEvent()]))
  {
    hide ValidRequest;
    hide Blank;
    RequestIsValid(ROLLBACK, "a", Money(5, BRL), "b", 20);
    NotBlank("c");
  }

  lemma PaybackPosts()
    ensures var row := NewWork(DB1, PAYBACK, 20, T).row;
      Post(Insert(DB1, row), Persist(row, Waiting(), T),
        Outcome(WalletWith(0, 1, T), Waiting(), None, [WaitingEvent()])) == DB2()
  {
    var row := NewWork(DB1, PAYBACK, 20, T).row;
    var db := Post(Insert(DB1, row), Persist(row, Waiting(), T),
      Outcome(WalletWith(0, 1, T), Waiting(), None, [WaitingEvent()]));
    assert Persist(row, Waiting(), T) == WaitingRow();
    assert db.wagers == DB2().wagers;
    assert db.outbox[WALLET] == [WaitingEvent()];
    assert db.outbox == DB2().outbox;
  }

  lemma PaybackCommits()
    ensures Shape(DB1) &&
      ProcessWager(DB1, PAYBACK_CALL) == Ok((DB2(), ResultOf(Waiting(), WalletWith(0, 1, T), false)))
  {
    hide Post;
    hide Persist;
    hide ResultOf;
    hide ProcessWager;
    hide Settle;
    hide Opens;
    hide Shape;
    FirstIsShaped();
    OrderOpens(DB1, ROLLBACK, "a", Money(5, BRL), "b", 20);
    PaybackSettles();
    PaybackPosts();
    var row := NewWork(DB1, PAYBACK, 20, T).row;
    InsertedShape(DB1, row, PAYBACK, PAYBACK_CALL);
    IndexOf(Insert(DB1, row));
    OrderCommits(DB1, PAYBACK_CALL, PAYBACK, Outcome(WalletWith(0, 1, T), Waiting(), None, [WaitingEvent()]));
  }

  // The WIN that the ROLLBACK waits for.

  function Won(): WagerData { Changed(Fresh(RequestFor(GAIN, 30)), ToProcessed(Money(5, BRL), 2, NO_ID), T) }

  function WonEntry(): LedgerData {
    LedgerData(31, WALLET, 30, CREDIT, Money(5, BRL), Money(0, BRL), Money(5, BRL), T)
  }

  function WonEvents(): seq<Event> {
    [WagerEvent(MetaOf(32, TRACE, T), Won()), BalanceChanged(MetaOf(33, TRACE, T), WonEntry(), 2)]
  }

  function WonRow(): WagerRow { WagerRow(Won(), TRACE, 0, None, None) }

  function WonOutcome(): Outcome { Outcome(WalletWith(5, 2, T), Won(), Some(WonEntry()), WonEvents()) }

  /** After the WIN. */
  function DB3(): Db {
    Db(map[WALLET := WalletWith(5, 2, T)], map[20 := WaitingRow(), 30 := WonRow()],
       map[("p", "a") := 20, ("p", "b") := 30], map[("p", "a") := 20, ("p", "b") := 30],
       map[WALLET := [WonEntry()]], map[WALLET := [WaitingEvent()] + WonEvents()], map[])
  }

  lemma GainIsDecided()
    ensures Evaluate(WalletWith(0, 1, T), Fresh(RequestFor(GAIN, 30)), None, false) ==
      Ok(Decision(CREDIT, false, NoCode))
  {
    hide ValidRequest;
    RequestIsValid(WIN, "b", Money(5, BRL), "", 30);
  }

  lemma GainSettles()
    ensures Settle(WalletWith(0, 1, T), Fresh(RequestFor(GAIN, 30)), TRACE, None, false, false, GAIN_CALL.stamps) ==
      Ok(WonOutcome())
  {
    hide Evaluate;
    hide ValidRequest;
    hide Blank;
    GainIsDecided();
    RequestIsValid(WIN, "b", Money(5, BRL), "", 30);
    NotBlank("c");
  }

  lemma GainPosts()
    ensures var row := NewWork(DB2(), GAIN, 30, T).row;
      Post(Insert(DB2(), row), Persist(row, Won(), T), WonOutcome()) == DB3()
  {
    var row := NewWork(DB2(), GAIN, 30, T).row;
    var db := Post(Insert(DB2(), row), Persist(row, Won(), T), WonOutcome());
    assert Persist(row, Won(), T) == WonRow();
    assert db.wallets == DB3().wallets;
    assert db.wagers == DB3().wagers;
    assert db.byKey == DB3().byKey;
    assert db.byExternal == DB3().byExternal;
    assert db.ledger[WALLET] == [WonEntry()];
    assert db.ledger == DB3().ledger;
    assert db.outbox == DB3().outbox;
  }

  lemma SecondTables()
    ensures var db := DB2();
      && db.wallets == map[WALLET := WalletWith(0, 1, T)] && ("p", "b") !in db.byKey && ("p", "b") !in db.byExternal
      && 30 !in db.wagers && WALLET in db.ledger && WALLET in db.outbox
  {
    hide Waiting;
  }

  lemma NothingSought(db: Db, row: WagerRow)
    requires ExternalIndex(db.wagers, db.byExternal) && row.d.req.refExternal == ""
    ensures ReadReference(db, row.d.req, false) == None && !ReadReversed(db.wagers, None)
  {
  }

  lemma GainCommits()
    requires Shape(DB2())
    ensures ProcessWager(DB2(), GAIN_CALL) == Ok((DB3(), ResultOf(Won(), WalletWith(5, 2, T), false)))
  {
    hide DB2;
    hide DB3;
    hide Won;
    hide WonEvents;
    hide Reversed;
    hide ReadReference;
    hide Post;
    hide Persist;
    hide ResultOf;
    hide ProcessWager;
    hide Settle;
    hide Opens;
    hide Shape;
    SecondTables();
    OrderOpens(DB2(), WIN, "b", Money(5, BRL), "", 30);
    GainSettles();
    GainPosts();
    var row := NewWork(DB2(), GAIN, 30, T).row;
    InsertedShape(DB2(), row, GAIN, GAIN_CALL);
    assert Shape(Insert(DB2(), row));
    IndexOf(Insert(DB2(), row));
    NothingSought(Insert(DB2(), row), row);
    OrderCommits(DB2(), GAIN_CALL, GAIN, WonOutcome());
  }

  // The retry that processes the ROLLBACK.

  const T2: Time := T + SECOND
  const LEASE: Time := 60 * SECOND
  const CLAIM := Claim("w", 40, T2 + Millis(LEASE))
  const TRY := Retry(ReferenceClaim(20, WALLET, 40), 12, 24 * HOUR, T2, T2, StampsAt(T2, 51), T2, true)

  function ClaimedRow(): WagerRow { WagerRow(Waiting(), TRACE, 0, Some(T2), Some(CLAIM)) }

  /** After the waiting ROLLBACK was claimed. */
  function DB4(): Db { DB3().(wagers := map[20 := ClaimedRow(), 30 := WonRow()]) }

  lemma ClaimTakes()
    ensures ClaimReference(DB3(), 20, CLAIM, T2) == DB4()
  {
    assert WaitingRow().(claim := Some(CLAIM)) == ClaimedRow();
    assert ClaimReference(DB3(), 20, CLAIM, T2).wagers == DB4().wagers;
  }

  function PaidBack(): WagerData { Changed(Waiting(), ToProcessed(Money(0, BRL), 3, 30), T2) }

  function PaidEntry(): LedgerData {
    LedgerData(51, WALLET, 20, DEBIT, Money(5, BRL), Money(5, BRL), Money(0, BRL), T2)
  }

  function PaidEvents(): seq<Event> {
    [WagerEvent(MetaOf(52, TRACE, T2), PaidBack()), BalanceChanged(MetaOf(53, TRACE, T2), PaidEntry(), 3)]
  }

  function PaidOutcome(): Outcome { Outcome(WalletWith(0, 3, T2), PaidBack(), Some(PaidEntry()), PaidEvents()) }

  /** After the retry. */
  function DB5(): Db {
    DB4().(wallets := map[WALLET := WalletWith(0, 3, T2)],
           wagers := map[20 := WagerRow(PaidBack(), TRACE, 1, None, None), 30 := WonRow()],
           ledger := map[WALLET := [WonEntry(), PaidEntry()]],
           outbox := map[WALLET := [WaitingEvent()] + WonEvents() + PaidEvents()])
  }

  lemma WaitingIsValid()
    ensures ValidWager(Waiting())
  {
    hide ValidRequest;
    RequestIsValid(ROLLBACK, "a", Money(5, BRL), "b", 20);
  }

  lemma WonIsValid()
    ensures ValidWager(Won())
  {
    hide ValidRequest;
    RequestIsValid(WIN, "b", Money(5, BRL), "", 30);
  }

  lemma PaybackIsDecided()
    ensures Evaluate(WalletWith(5, 2, T), Waiting(), Some(Won()), false) == Ok(Decision(DEBIT, false, NoCode))
  {
    hide ValidRequest;
    WaitingIsValid();
    WonIsValid();
  }

  lemma PaybackIsProcessed()
    ensures Settle(WalletWith(5, 2, T), Waiting(), TRACE, Some(Won()), false, false, TRY.stamps) == Ok(PaidOutcome())
  {
    hide Evaluate;
    hide ValidRequest;
    hide Blank;
    PaybackIsDecided();
    RequestIsValid(ROLLBACK, "a", Money(5, BRL), "b", 20);
    NotBlank("c");
  }

  lemma NothingReversed()
    ensures !Reversed(DB4().wagers, 30)
  {
  }

  lemma PaidIsTwenty()
    ensures PaidBack().req.id == 20
  {
  }

  lemma PaidPosts()
    ensures Post(DB4(), WagerRow(PaidBack(), TRACE, 1, None, None), PaidOutcome()) == DB5()
  {
    PaidIsTwenty();
    hide PaidBack;
    hide Waiting;
    hide Won;
    hide WonEntry;
    hide WonEvents;
    hide PaidEntry;
    hide PaidEvents;
    var db := Post(DB4(), WagerRow(PaidBack(), TRACE, 1, None, None), PaidOutcome());
    assert db.wallets == DB5().wallets;
    assert db.wagers == DB5().wagers;
    assert db.ledger[WALLET] == [WonEntry(), PaidEntry()];
    assert db.ledger == DB5().ledger;
    assert db.outbox == DB5().outbox;
  }

  lemma RetryReads()
    requires Shape(DB4())
    ensures ReadReference(DB4(), Waiting().req, true) == Some(Won())
  {
  }

  lemma RetryComesOut()
    ensures RetryOutcome(Attempted(ClaimedRow()), WalletWith(5, 2, T), TRY, Some(Won()), false) ==
      Ok((WagerRow(PaidBack(), TRACE, 1, None, None), PaidOutcome()))
  {
    hide Settle;
    PaybackIsProcessed();
    assert Attempted(ClaimedRow()).attempts == 1;
  }

  lemma RetryStarts()
    ensures Attempted(ClaimedRow()).d == Waiting() && Claimed(ClaimedRow(), TRY.claim, TRY.clock)
  {
  }

  lemma RetryCommits()
    requires Shape(DB4())
    ensures RetryReference(DB4(), TRY) == Ok((DB5(), ResultOf(PaidBack(), WalletWith(0, 3, T2), false)))
  {
    hide RetryOutcome;
    hide Attempted;
    hide Claimed;
    hide Post;
    hide Reversed;
    hide Placed;
    hide KeyIndex;
    hide InboxClosed;
    hide ReadReference;
    hide PaidBack;
    hide DB5;
    RetryReads();
    NothingReversed();
    RetryComesOut();
    PaidPosts();
    RetryStarts();
  }
}
