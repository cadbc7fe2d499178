/**
 * The financial state of one wallet, the invariants that hold of it in every reachable state, and
 * their preservation by the two ways in which a transaction may change it.
 */
module Accounts {
  import opened Prelude
  import opened Money
  import opened Wallet
  import opened Wager
  import opened Ledger
  import opened Tables

  /** A wager of the wallet, without the claim columns. */
  datatype Standing = Standing(d: WagerData, attempts: nat)

  datatype Account = Account(wallet: WalletData, wagers: map<Id, Standing>, ledger: seq<LedgerData>, events: seq<Event>)

  // ---------- versions and balances as functions of the ledger ----------

  /** The wallet was opened with money: its first entry is the OPENING. */
  predicate Opened(a: Account) {
    && a.ledger != [] && a.ledger[0].transactionId in a.wagers
    && a.wagers[a.ledger[0].transactionId].d.req.kind == OPENING
  }

  /** The wallet version after the first k entries: one plus the number of non-opening ones. */
  function VersionAt(a: Account, k: int): int {
    if Opened(a) then k else k + 1
  }

  /** The number of entries behind a version. */
  function PrefixOf(a: Account, version: int): int {
    if Opened(a) then version else version - 1
  }

  /** The balance after the first k entries. */
  function BalanceAt(a: Account, k: nat): Money
    requires k <= |a.ledger|
  {
    if k == 0 then Money(0, a.wallet.balance.currency) else a.ledger[k - 1].balanceAfter
  }

  // ---------- the invariants ----------

  /** Every wager is consistent, belongs to the wallet, and is never left PENDING. */
  ghost predicate Rows(a: Account) {
    forall id {:trigger a.wagers[id]} :: id in a.wagers ==> RowFits(a.wallet, id, a.wagers[id])
  }

  predicate RowFits(w: WalletData, id: Id, s: Standing) {
    && s.d.req.id == id && ValidWager(s.d)
    && s.d.req.walletId == w.id && s.d.req.playerId == w.playerId
    && s.d.status != PENDING && (s.d.req.kind == OPENING ==> s.d.status == PROCESSED && s.attempts == 0)
    && (s.d.status != PROCESSED || s.d.req.refExternal == "" ==> s.d.referenceId == NO_ID)
  }

  /** Balance and version are those after the whole ledger. */
  ghost predicate Current(a: Account) {
    && ValidWallet(a.wallet)
    && a.wallet.version == VersionAt(a, |a.ledger|)
    && a.wallet.balance == BalanceAt(a, |a.ledger|)
  }

  /** Each entry starts where the previous one ended, and adds up. */
  ghost predicate Chain(a: Account) {
    forall i :: 0 <= i < |a.ledger| ==>
      && NewLedgerEntry(a.ledger[i]).Ok? && a.ledger[i].walletId == a.wallet.id
      && a.ledger[i].balanceBefore == BalanceAt(a, i)
      && a.ledger[i].money.currency == a.wallet.balance.currency
  }

  /** The direction the kinds call for. */
  function ExpectedDirection(a: Account, d: WagerData): Direction {
    if d.req.kind == OPENING then CREDIT
    else DirectionOf(d.req.kind, if d.referenceId in a.wagers then a.wagers[d.referenceId].d.req.kind else BET)
  }

  /** Each entry is the effect of one processed wager, whose result is the wallet right after it. */
  ghost predicate Backed(a: Account) {
    forall i :: 0 <= i < |a.ledger| ==> Backs(a, i)
  }

  ghost predicate Backs(a: Account, i: nat)
    requires i < |a.ledger|
  {
    var e := a.ledger[i];
    && e.transactionId in a.wagers
    && var d := a.wagers[e.transactionId].d;
    && d.status == PROCESSED && d.req.kind != LOSS && d.req.money == e.money
    && d.resultBalance == e.balanceAfter && d.resultVersion == VersionAt(a, i + 1)
    && e.direction == ExpectedDirection(a, d)
    && (d.req.kind == OPENING ==> i == 0)
  }

  /** Each processed wager with money has its entry, at the place its result version tells. */
  ghost predicate Posted(a: Account) {
    forall id {:trigger a.wagers[id]} :: id in a.wagers && Financial(a.wagers[id].d) ==>
      var i := PrefixOf(a, a.wagers[id].d.resultVersion) - 1;
      0 <= i < |a.ledger| && a.ledger[i].transactionId == id
  }

  predicate Financial(d: WagerData) { d.status == PROCESSED && d.req.kind != LOSS }

  /** Every terminal result is the wallet as it was after some prefix of the ledger, in its currency. */
  ghost predicate Frozen(a: Account) {
    forall id {:trigger a.wagers[id]} :: id in a.wagers && a.wagers[id].d.status.Terminal() ==>
      ResultIsPrefix(a, a.wagers[id].d)
  }

  predicate ResultIsPrefix(a: Account, d: WagerData) {
    var k := PrefixOf(a, d.resultVersion);
    0 <= k <= |a.ledger| && (Opened(a) ==> k >= 1) && d.resultBalance == BalanceAt(a, k)
  }

  /** The reference of a processed wager is an earlier processed one that it may refer to. */
  ghost predicate References(a: Account) {
    forall id {:trigger a.wagers[id]} ::
      id in a.wagers && a.wagers[id].d.status == PROCESSED && a.wagers[id].d.req.refExternal != "" ==>
        ReferenceFits(a, a.wagers[id].d)
  }

  predicate ReferenceFits(a: Account, d: WagerData) {
    && d.referenceId in a.wagers
    && var t := a.wagers[d.referenceId].d;
    && t.status == PROCESSED && SameContext(t.req, d.req) && KindMayReference(d.req.kind, t.req.kind)
    && t.resultVersion < d.resultVersion
    && (IsReversal(d.req.kind) ==> t.req.money == d.req.money)
  }

  ghost predicate ReversedIn(a: Account, id: Id) {
    exists r :: r in a.wagers && Reverses(a.wagers[r].d, id)
  }

  /** No wager is reversed twice. */
  ghost predicate Single(a: Account) {
    forall r, q, id :: r in a.wagers && q in a.wagers && Reverses(a.wagers[r].d, id) && Reverses(a.wagers[q].d, id) ==>
      r == q
  }

  // ---------- the two changes ----------

  /** A wager row that a transaction may write: a new one, or the next attempt of a waiting one. */
  predicate MayWrite(a: Account, s: Standing) {
    var id := s.d.req.id;
    && RowFits(a.wallet, id, s) && s.d.req.kind != OPENING
    && (if id in a.wagers then
          a.wagers[id].d.req == s.d.req && a.wagers[id].d.status == PENDING_REFERENCE &&
            s.attempts == a.wagers[id].attempts + 1
        else s.attempts == 0)
  }

  function Record(a: Account, s: Standing, es: seq<Event>): Account {
    a.(wagers := a.wagers[s.d.req.id := s], events := a.events + es)
  }

  function Book(a: Account, w: WalletData, s: Standing, e: LedgerData, es: seq<Event>): Account {
    a.(wallet := w, wagers := a.wagers[s.d.req.id := s], ledger := a.ledger + [e], events := a.events + es)
  }

  /** Recording moves no money; a terminal record answers with the present wallet. */
  predicate MayRecord(a: Account, s: Standing) {
    && MayWrite(a, s)
    && (s.d.status.Terminal() ==> s.d.resultBalance == a.wallet.balance && s.d.resultVersion == a.wallet.version)
    && (s.d.status == PROCESSED ==> s.d.req.kind == LOSS)
  }

  /** Booking moves money once, on a reference that is still whole. */
  ghost predicate MayBook(a: Account, w: WalletData, s: Standing, e: LedgerData) {
    && MayWrite(a, s) && Financial(s.d)
    && ValidWallet(w) && w.version == a.wallet.version + 1
    && w == a.wallet.(balance := w.balance, version := w.version, updatedAt := w.updatedAt)
    && s.d.resultBalance == w.balance && s.d.resultVersion == w.version
    && NewLedgerEntry(e).Ok? && e.walletId == w.id && e.transactionId == s.d.req.id && e.money == s.d.req.money
    && e.balanceBefore == a.wallet.balance && e.balanceAfter == w.balance
    && e.direction == ExpectedDirection(a, s.d)
    && (s.d.req.refExternal != "" ==> ReferenceFits(a, s.d))
    && (IsReversal(s.d.req.kind) ==> s.d.req.refExternal != "" && !ReversedIn(a, s.d.referenceId))
  }

  ghost predicate Sound(a: Account) {
    Rows(a) && Current(a) && Chain(a) && Backed(a) && Posted(a) && Frozen(a) && References(a) && Single(a)
  }

  // ---------- recording ----------

  lemma RecordFrames(a: Account, s: Standing, es: seq<Event>)
    requires Backed(a) && MayRecord(a, s)
    ensures Opened(Record(a, s, es)) == Opened(a)
    ensures forall i :: 0 <= i < |a.ledger| ==> a.ledger[i].transactionId != s.d.req.id
  {
    forall i | 0 <= i < |a.ledger| ensures a.ledger[i].transactionId != s.d.req.id {
      assert Backs(a, i);
    }
  }

  lemma RecordKeeps(a: Account, s: Standing, es: seq<Event>)
    requires Sound(a) && MayRecord(a, s)
    ensures Sound(Record(a, s, es))
  {
    WriteKeepsRows(a, Record(a, s, es), s);
    RecordKeepsCurrent(a, s, es);
    RecordKeepsChain(a, s, es);
    RecordKeepsPosted(a, s, es);
    RecordKeepsBacked(a, s, es);
    RecordKeepsFrozen(a, s, es);
    RecordKeepsReferences(a, s, es);
    RecordKeepsSingle(a, s, es);
  }

  lemma WriteKeepsRows(a: Account, b: Account, s: Standing)
    requires Rows(a) && MayWrite(a, s) && b.wagers == a.wagers[s.d.req.id := s]
    requires b.wallet.id == a.wallet.id && b.wallet.playerId == a.wallet.playerId
    ensures Rows(b)
  {
    forall id | id in b.wagers ensures RowFits(b.wallet, id, b.wagers[id]) {
      assert id != s.d.req.id ==> RowFits(a.wallet, id, a.wagers[id]);
    }
  }

  lemma RecordKeepsCurrent(a: Account, s: Standing, es: seq<Event>)
    requires Current(a) && Backed(a) && MayRecord(a, s)
    ensures Current(Record(a, s, es))
  {
    RecordFrames(a, s, es);
  }

  lemma RecordKeepsChain(a: Account, s: Standing, es: seq<Event>)
    requires Chain(a)
    ensures Chain(Record(a, s, es))
  {
    var b := Record(a, s, es);
    forall i | 0 <= i < |b.ledger|
      ensures NewLedgerEntry(b.ledger[i]).Ok? && b.ledger[i].balanceBefore == BalanceAt(b, i)
    {
      assert NewLedgerEntry(a.ledger[i]).Ok? && a.ledger[i].balanceBefore == BalanceAt(a, i);
    }
  }

  lemma RecordKeepsPosted(a: Account, s: Standing, es: seq<Event>)
    requires Backed(a) && Posted(a) && MayRecord(a, s)
    ensures Posted(Record(a, s, es))
  {
    var b := Record(a, s, es);
    RecordFrames(a, s, es);
    assert !Financial(s.d);
    forall id | id in b.wagers && Financial(b.wagers[id].d)
      ensures var i := PrefixOf(b, b.wagers[id].d.resultVersion) - 1;
        0 <= i < |b.ledger| && b.ledger[i].transactionId == id
    {
      assert id != s.d.req.id && Financial(a.wagers[id].d);
    }
  }

  lemma RecordKeepsSingle(a: Account, s: Standing, es: seq<Event>)
    requires Single(a) && MayRecord(a, s)
    ensures Single(Record(a, s, es))
  {
    var b := Record(a, s, es);
    forall r, q, id | r in b.wagers && q in b.wagers && Reverses(b.wagers[r].d, id) && Reverses(b.wagers[q].d, id)
      ensures r == q
    {
      assert r != s.d.req.id && q != s.d.req.id;
    }
  }

  /** The kind behind a reference does not change when a row is written. */
  lemma WriteKeepsDirection(a: Account, b: Account, s: Standing, d: WagerData)
    requires MayWrite(a, s) && b.wagers == a.wagers[s.d.req.id := s]
    requires d.req.kind == ROLLBACK ==> d.referenceId in a.wagers
    ensures ExpectedDirection(b, d) == ExpectedDirection(a, d)
  {
    hide RowFits;
  }

  lemma RecordKeepsBacked(a: Account, s: Standing, es: seq<Event>)
    requires Rows(a) && Backed(a) && References(a) && MayRecord(a, s)
    ensures Backed(Record(a, s, es))
  {
    var b := Record(a, s, es);
    RecordFrames(a, s, es);
    forall i | 0 <= i < |b.ledger| ensures Backs(b, i) {
      assert Backs(a, i);
      var d := a.wagers[a.ledger[i].transactionId].d;
      WriteKeepsDirection(a, b, s, d);
    }
  }

  lemma RecordKeepsFrozen(a: Account, s: Standing, es: seq<Event>)
    requires Current(a) && Backed(a) && Frozen(a) && MayRecord(a, s)
    ensures Frozen(Record(a, s, es))
  {
    var b := Record(a, s, es);
    RecordFrames(a, s, es);
    forall id | id in b.wagers && b.wagers[id].d.status.Terminal() ensures ResultIsPrefix(b, b.wagers[id].d) {
      if id != s.d.req.id {
        assert ResultIsPrefix(a, a.wagers[id].d);
      }
    }
  }

  lemma LossHasNoReference(d: WagerData)
    requires ValidWager(d) && d.req.kind == LOSS
    ensures d.req.refExternal == ""
  {
  }

  lemma RecordKeepsReferences(a: Account, s: Standing, es: seq<Event>)
    requires Rows(a) && References(a) && MayRecord(a, s)
    ensures References(Record(a, s, es))
  {
    var b := Record(a, s, es);
    forall id | id in b.wagers && b.wagers[id].d.status == PROCESSED && b.wagers[id].d.req.refExternal != ""
      ensures ReferenceFits(b, b.wagers[id].d)
    {
      if id == s.d.req.id {
        LossHasNoReference(s.d);
      } else {
        assert ReferenceFits(a, a.wagers[id].d);
      }
    }
  }

  // ---------- booking ----------

  lemma BookFrames(a: Account, w: WalletData, s: Standing, e: LedgerData, es: seq<Event>)
    requires Backed(a) && MayBook(a, w, s, e)
    ensures Opened(Book(a, w, s, e, es)) == Opened(a)
    ensures forall i :: 0 <= i < |a.ledger| ==> a.ledger[i].transactionId != s.d.req.id
    ensures forall k :: 0 <= k <= |a.ledger| ==> BalanceAt(Book(a, w, s, e, es), k) == BalanceAt(a, k)
  {
    forall i | 0 <= i < |a.ledger| ensures a.ledger[i].transactionId != s.d.req.id {
      assert Backs(a, i);
    }
    var b := Book(a, w, s, e, es);
    if a.ledger != [] { assert b.ledger[0] == a.ledger[0]; }
  }

  lemma BookKeeps(a: Account, w: WalletData, s: Standing, e: LedgerData, es: seq<Event>)
    requires Sound(a) && MayBook(a, w, s, e)
    ensures Sound(Book(a, w, s, e, es))
  {
    WriteKeepsRows(a, Book(a, w, s, e, es), s);
    BookKeepsCurrent(a, w, s, e, es);
    BookKeepsChain(a, w, s, e, es);
    BookKeepsPosted(a, w, s, e, es);
    BookKeepsBacked(a, w, s, e, es);
    BookKeepsFrozen(a, w, s, e, es);
    BookKeepsReferences(a, w, s, e, es);
    BookKeepsSingle(a, w, s, e, es);
  }

  lemma BookKeepsCurrent(a: Account, w: WalletData, s: Standing, e: LedgerData, es: seq<Event>)
    requires Current(a) && Backed(a) && MayBook(a, w, s, e)
    ensures Current(Book(a, w, s, e, es))
  {
    BookFrames(a, w, s, e, es);
  }

  /** The booked entry starts where the ledger ends. */
  lemma EntryFollows(a: Account, w: WalletData, s: Standing, e: LedgerData)
    requires Current(a) && MayBook(a, w, s, e)
    ensures NewLedgerEntry(e).Ok? && e.walletId == a.wallet.id == w.id && e.balanceBefore == BalanceAt(a, |a.ledger|)
    ensures e.money.currency == a.wallet.balance.currency == w.balance.currency
  {
    hide RowFits;
    hide ReferenceFits;
  }

  lemma BookKeepsChain(a: Account, w: WalletData, s: Standing, e: LedgerData, es: seq<Event>)
    requires Current(a) && Chain(a) && Backed(a) && MayBook(a, w, s, e)
    ensures Chain(Book(a, w, s, e, es))
  {
    hide Current;
    hide Backed;
    hide MayBook;
    hide NewLedgerEntry;
    hide BalanceAt;
    var b := Book(a, w, s, e, es);
    BookFrames(a, w, s, e, es);
    EntryFollows(a, w, s, e);
    forall i | 0 <= i < |b.ledger|
      ensures NewLedgerEntry(b.ledger[i]).Ok? && b.ledger[i].balanceBefore == BalanceAt(b, i)
    {
      if i < |a.ledger| {
        assert NewLedgerEntry(a.ledger[i]).Ok? && a.ledger[i].balanceBefore == BalanceAt(a, i);
      }
    }
  }

  lemma BookKeepsPosted(a: Account, w: WalletData, s: Standing, e: LedgerData, es: seq<Event>)
    requires Current(a) && Backed(a) && Posted(a) && MayBook(a, w, s, e)
    ensures Posted(Book(a, w, s, e, es))
  {
    hide Backed;
    hide RowFits;
    hide NewLedgerEntry;
    hide ReferenceFits;
    hide ValidWallet;
    var b := Book(a, w, s, e, es);
    BookFrames(a, w, s, e, es);
    forall id | id in b.wagers && Financial(b.wagers[id].d)
      ensures var i := PrefixOf(b, b.wagers[id].d.resultVersion) - 1;
        0 <= i < |b.ledger| && b.ledger[i].transactionId == id
    {
      if id != s.d.req.id { assert Financial(a.wagers[id].d); }
    }
  }

  lemma BookKeepsBacked(a: Account, w: WalletData, s: Standing, e: LedgerData, es: seq<Event>)
    requires Rows(a) && Current(a) && Backed(a) && References(a) && MayBook(a, w, s, e)
    ensures Backed(Book(a, w, s, e, es))
  {
    var b := Book(a, w, s, e, es);
    BookFrames(a, w, s, e, es);
    forall i | 0 <= i < |b.ledger| ensures Backs(b, i) {
      if i < |a.ledger| {
        OldEntryBacked(a, b, s, i);
      } else {
        NewEntryBacked(a, w, s, e, es);
      }
    }
  }

  lemma OldEntryBacked(a: Account, b: Account, s: Standing, i: nat)
    requires Rows(a) && Backed(a) && References(a) && MayWrite(a, s) && b.wagers == a.wagers[s.d.req.id := s]
    requires i < |a.ledger| <= |b.ledger| && b.ledger[i] == a.ledger[i] && Opened(b) == Opened(a)
    ensures Backs(b, i)
  {
    assert Backs(a, i);
    if a.wagers[a.ledger[i].transactionId].d.req.kind == ROLLBACK {
      RollbackTarget(a, a.ledger[i].transactionId);
    }
    hide RowFits;
    var d := a.wagers[a.ledger[i].transactionId].d;
    WriteKeepsDirection(a, b, s, d);
  }

  lemma RollbackTarget(a: Account, id: Id)
    requires Rows(a) && References(a) && id in a.wagers && a.wagers[id].d.status == PROCESSED &&
      a.wagers[id].d.req.kind == ROLLBACK
    ensures a.wagers[id].d.referenceId in a.wagers
  {
    assert RowFits(a.wallet, id, a.wagers[id]);
    assert ReferenceFits(a, a.wagers[id].d);
  }

  lemma NewEntryBacked(a: Account, w: WalletData, s: Standing, e: LedgerData, es: seq<Event>)
    requires Current(a) && References(a) && MayBook(a, w, s, e) && Opened(Book(a, w, s, e, es)) == Opened(a)
    ensures Backs(Book(a, w, s, e, es), |a.ledger|)
  {
    WriteKeepsDirection(a, Book(a, w, s, e, es), s, s.d);
  }

  lemma BookKeepsFrozen(a: Account, w: WalletData, s: Standing, e: LedgerData, es: seq<Event>)
    requires Current(a) && Backed(a) && Frozen(a) && MayBook(a, w, s, e)
    ensures Frozen(Book(a, w, s, e, es))
  {
    var b := Book(a, w, s, e, es);
    BookFrames(a, w, s, e, es);
    forall id | id in b.wagers && b.wagers[id].d.status.Terminal() ensures ResultIsPrefix(b, b.wagers[id].d) {
      if id != s.d.req.id {
        assert ResultIsPrefix(a, a.wagers[id].d);
      }
    }
  }

  lemma BookKeepsReferences(a: Account, w: WalletData, s: Standing, e: LedgerData, es: seq<Event>)
    requires Rows(a) && References(a) && MayBook(a, w, s, e)
    ensures References(Book(a, w, s, e, es))
  {
    hide RowFits;
    hide NewLedgerEntry;
    hide ValidWallet;
    var b := Book(a, w, s, e, es);
    forall id | id in b.wagers && b.wagers[id].d.status == PROCESSED && b.wagers[id].d.req.refExternal != ""
      ensures ReferenceFits(b, b.wagers[id].d)
    {
      if id != s.d.req.id {
        assert ReferenceFits(a, a.wagers[id].d);
      }
    }
  }

  lemma BookKeepsSingle(a: Account, w: WalletData, s: Standing, e: LedgerData, es: seq<Event>)
    requires Single(a) && MayBook(a, w, s, e)
    ensures Single(Book(a, w, s, e, es))
  {
    var b := Book(a, w, s, e, es);
    forall r, q, id | r in b.wagers && q in b.wagers && Reverses(b.wagers[r].d, id) && Reverses(b.wagers[q].d, id)
      ensures r == q
    {
      if r != s.d.req.id && q != s.d.req.id {
        assert Reverses(a.wagers[r].d, id) && Reverses(a.wagers[q].d, id);
      }
    }
  }
}
