/** Every transaction, run alone, keeps the invariants of every wallet. */
module Reachable {
  import opened Prelude
  import opened Wallet
  import opened Wager
  import opened Ledger
  import opened Settlement
  import opened Tables
  import opened Accounts
  import opened ClosedForm
  import opened Emission

  function StandingOf(row: WagerRow): Standing { Standing(row.d, row.attempts) }

  /** The rows of one wallet. */
  function AccountOf(db: Db, wid: Id): Account
    requires wid in db.wallets && wid in db.ledger && wid in db.outbox
  {
    Account(db.wallets[wid], RowsIn(db.wagers, wid), db.ledger[wid], db.outbox[wid])
  }

  function RowsIn(wagers: map<Id, WagerRow>, wid: Id): map<Id, Standing> {
    map id | id in wagers && wagers[id].d.req.walletId == wid :: StandingOf(wagers[id])
  }

  ghost predicate Good(a: Account) {
    Sound(a) && Closed(a) && Emitted(a)
  }

  /** The wallets whose account violates an invariant. */
  ghost function Broken(db: Db): set<Id>
    requires db.wallets.Keys == db.ledger.Keys == db.outbox.Keys
  {
    set wid | wid in db.wallets && !Good(AccountOf(db, wid))
  }

  ghost predicate AllGood(db: Db)
    requires db.wallets.Keys == db.ledger.Keys == db.outbox.Keys
  {
    Broken(db) == {}
  }

  lemma GoodAccount(db: Db, wid: Id)
    requires db.wallets.Keys == db.ledger.Keys == db.outbox.Keys && AllGood(db) && wid in db.wallets
    ensures Good(AccountOf(db, wid))
  {
    assert wid !in Broken(db);
  }

  ghost predicate Inv(db: Db) {
    Shape(db) && AllGood(db)
  }

  // ---------- one account, one settlement ----------

  /** What an application read is true of the account. */
  ghost predicate ReadsFit(a: Account, d: WagerData, attempts: nat, reference: Option<WagerData>, reversed: bool) {
    && d.req.kind != OPENING
    && (if d.req.id in a.wagers then
          a.wagers[d.req.id].d == d && d.status == PENDING_REFERENCE && attempts == a.wagers[d.req.id].attempts + 1
        else d.status == PENDING && attempts == 0)
    && d.referenceId == NO_ID
    && (d.req.refExternal == "" ==> reference == None)
    && (reference.Some? && SameContext(reference.value.req, d.req) ==>
        reference.value.req.id in a.wagers && a.wagers[reference.value.req.id].d == reference.value)
    && (reference.Some? && !reversed ==> !ReversedIn(a, reference.value.req.id))
  }

  lemma EarlierVersion(a: Account, id: Id)
    requires Current(a) && Frozen(a) && id in a.wagers && a.wagers[id].d.status == PROCESSED
    ensures a.wagers[id].d.resultVersion <= a.wallet.version
  {
    assert ResultIsPrefix(a, a.wagers[id].d);
  }

  lemma NoZeroId(a: Account)
    requires Rows(a)
    ensures NO_ID !in a.wagers
  {
    forall id | id in a.wagers ensures id != NO_ID {
      assert RowFits(a.wallet, id, a.wagers[id]);
    }
  }

  /** A successful settlement is a permitted record or a permitted booking, with its events. */
  lemma SettlementFits(a: Account, d: WagerData, attempts: nat, trace: Trace, reference: Option<WagerData>,
          reversed: bool, expired: bool, st: Stamps)
    requires Rows(a) && Current(a) && Frozen(a) && ReadsFit(a, d, attempts, reference, reversed)
    requires Settle(a.wallet, d, trace, reference, reversed, expired, st).Ok?
    ensures var out := Settle(a.wallet, d, trace, reference, reversed, expired, st).value;
      Permitted(a, Standing(out.wager, attempts), out)
  {
    SettleMeans(a.wallet, d, trace, reference, reversed, expired, st);
    var out := Settle(a.wallet, d, trace, reference, reversed, expired, st).value;
    var s := Standing(out.wager, attempts);
    WrittenRowFits(a, d, attempts, trace, reference, reversed, expired, st);
    var decision := Evaluate(a.wallet, d, reference, reversed);
    if Accepted(decision) && decision.value.direction != NONE {
      BookingFits(a, d, attempts, trace, reference, reversed, expired, st);
    }
  }

  lemma WrittenRowFits(a: Account, d: WagerData, attempts: nat, trace: Trace, reference: Option<WagerData>,
          reversed: bool, expired: bool, st: Stamps)
    requires ReadsFit(a, d, attempts, reference, reversed)
    requires Settle(a.wallet, d, trace, reference, reversed, expired, st).Ok?
    ensures MayWrite(a, Standing(Settle(a.wallet, d, trace, reference, reversed, expired, st).value.wager, attempts))
  {
    SettleMeans(a.wallet, d, trace, reference, reversed, expired, st);
  }

  lemma BookingFits(a: Account, d: WagerData, attempts: nat, trace: Trace, reference: Option<WagerData>, reversed: bool,
                    expired: bool, st: Stamps)
    requires Rows(a) && Current(a) && Frozen(a) && ReadsFit(a, d, attempts, reference, reversed)
    requires Settle(a.wallet, d, trace, reference, reversed, expired, st).Ok?
    requires Accepted(Evaluate(a.wallet, d, reference, reversed)) &&
      Evaluate(a.wallet, d, reference, reversed).value.direction != NONE
    ensures var out := Settle(a.wallet, d, trace, reference, reversed, expired, st).value;
      out.entry.Some? && MayBook(a, out.wallet, Standing(out.wager, attempts), out.entry.value)
  {
    SettleMeans(a.wallet, d, trace, reference, reversed, expired, st);
    WrittenRowFits(a, d, attempts, trace, reference, reversed, expired, st);
    AcceptedMeans(a.wallet, d, reference, reversed);
    NoZeroId(a);
    var out := Settle(a.wallet, d, trace, reference, reversed, expired, st).value;
    if d.req.refExternal != "" {
      EarlierVersion(a, reference.value.req.id);
      assert ReferenceFits(a, out.wager);
    }
    assert out.entry.value.direction == ExpectedDirection(a, out.wager);
  }

  // ---------- one account inside the tables ----------

  /** The tables change in one wager row and in the rows of its wallet only. */
  ghost predicate Writes(db: Db, db': Db, row: WagerRow, w: WalletData, entries: seq<LedgerData>, es: seq<Event>) {
    var wid := row.d.req.walletId;
    && wid in db.wallets && wid in db.ledger && wid in db.outbox
    && (row.d.req.id in db.wagers ==> db.wagers[row.d.req.id].d.req == row.d.req)
    && db'.wallets == db.wallets[wid := w]
    && db'.wagers == db.wagers[row.d.req.id := row]
    && db'.ledger == db.ledger[wid := db.ledger[wid] + entries]
    && db'.outbox == db.outbox[wid := db.outbox[wid] + es]
  }

  lemma WrittenRows(before: map<Id, WagerRow>, after: map<Id, WagerRow>, row: WagerRow)
    requires after == before[row.d.req.id := row]
    requires row.d.req.id in before ==> before[row.d.req.id].d.req == row.d.req
    ensures RowsIn(after, row.d.req.walletId) == RowsIn(before, row.d.req.walletId)[row.d.req.id := StandingOf(row)]
    ensures forall wid :: wid != row.d.req.walletId ==> RowsIn(after, wid) == RowsIn(before, wid)
  {
  }

  lemma WriteOneAccount(db: Db, db': Db, row: WagerRow, w: WalletData, entries: seq<LedgerData>, es: seq<Event>)
    requires Writes(db, db', row, w, entries, es)
    ensures var wid := row.d.req.walletId;
      var a := AccountOf(db, wid);
      AccountOf(db', wid) == Account(w, a.wagers[row.d.req.id := StandingOf(row)], a.ledger + entries, a.events + es)
  {
    WrittenRows(db.wagers, db'.wagers, row);
  }

  lemma OtherAccount(db: Db, db': Db, row: WagerRow, w: WalletData, entries: seq<LedgerData>, es: seq<Event>, wid: Id)
    requires Writes(db, db', row, w, entries, es)
    requires wid != row.d.req.walletId && wid in db.wallets && wid in db.ledger && wid in db.outbox
    ensures wid in db'.wallets && wid in db'.ledger && wid in db'.outbox && AccountOf(db', wid) == AccountOf(db, wid)
  {
    WrittenRows(db.wagers, db'.wagers, row);
  }

  /** The outcome is a permitted record or booking on the account, with its events. */
  ghost predicate Permitted(a: Account, s: Standing, out: Outcome) {
    if out.entry == None then out.wallet == a.wallet && MayRecord(a, s) && RecordEvents(a, s, out.events)
    else MayBook(a, out.wallet, s, out.entry.value) && BookEvents(out.wallet, s, out.entry.value, out.events)
  }

  function EntriesOf(out: Outcome): seq<LedgerData> {
    if out.entry.Some? then [out.entry.value] else []
  }

  /** Writing a permitted record or booking keeps every account good. */
  lemma WriteKeepsGood(db: Db, db': Db, row: WagerRow, out: Outcome)
    requires db.wallets.Keys == db.ledger.Keys == db.outbox.Keys && AllGood(db)
    requires Writes(db, db', row, out.wallet, EntriesOf(out), out.events)
    requires Permitted(AccountOf(db, row.d.req.walletId), StandingOf(row), out)
    ensures db'.wallets.Keys == db.wallets.Keys == db'.ledger.Keys == db'.outbox.Keys && AllGood(db')
  {
    GoodAccount(db, row.d.req.walletId);
    OwnAccountGood(db, db', row, out);
    OthersStayGood(db, db', row, out.wallet, EntriesOf(out), out.events);
  }

  lemma OwnAccountGood(db: Db, db': Db, row: WagerRow, out: Outcome)
    requires Writes(db, db', row, out.wallet, EntriesOf(out), out.events)
    requires Good(AccountOf(db, row.d.req.walletId))
    requires Permitted(AccountOf(db, row.d.req.walletId), StandingOf(row), out)
    ensures Good(AccountOf(db', row.d.req.walletId))
  {
    var wid := row.d.req.walletId;
    WriteOneAccount(db, db', row, out.wallet, EntriesOf(out), out.events);
    WrittenIsGood(AccountOf(db, wid), AccountOf(db', wid), StandingOf(row), out);
  }

  lemma OthersStayGood(db: Db, db': Db, row: WagerRow, w: WalletData, entries: seq<LedgerData>, es: seq<Event>)
    requires db.wallets.Keys == db.ledger.Keys == db.outbox.Keys && AllGood(db)
    requires Writes(db, db', row, w, entries, es) && Good(AccountOf(db', row.d.req.walletId))
    ensures db'.wallets.Keys == db.wallets.Keys == db'.ledger.Keys == db'.outbox.Keys && AllGood(db')
  {
    hide Good;
    hide RowsIn;
    hide AccountOf;
    forall wid | wid in db'.wallets ensures wid !in Broken(db') {
      if wid != row.d.req.walletId {
        OtherAccount(db, db', row, w, entries, es, wid);
        assert wid !in Broken(db);
      }
    }
  }

  lemma WrittenIsGood(a: Account, b: Account, s: Standing, out: Outcome)
    requires Good(a) && Permitted(a, s, out)
    requires b == Account(out.wallet, a.wagers[s.d.req.id := s], a.ledger + EntriesOf(out), a.events + out.events)
    ensures Good(b)
  {
    if out.entry == None {
      assert a.ledger + [] == a.ledger;
      assert b == Record(a, s, out.events);
      RecordIsGood(a, s, out.events);
    } else {
      assert b == Book(a, out.wallet, s, out.entry.value, out.events);
      BookIsGood(a, out.wallet, s, out.entry.value, out.events);
    }
  }

  lemma RecordIsGood(a: Account, s: Standing, es: seq<Event>)
    requires Good(a) && MayRecord(a, s) && RecordEvents(a, s, es)
    ensures Good(Record(a, s, es))
  {
    RecordKeeps(a, s, es);
    RecordKeepsClosed(a, s, es);
    RecordKeepsEmitted(a, s, es);
  }

  lemma BookIsGood(a: Account, w: WalletData, s: Standing, e: LedgerData, es: seq<Event>)
    requires Good(a) && MayBook(a, w, s, e) && BookEvents(w, s, e, es)
    ensures Good(Book(a, w, s, e, es))
  {
    BookKeeps(a, w, s, e, es);
    BookKeepsClosed(a, w, s, e, es);
    BookKeepsEmitted(a, w, s, e, es);
  }
}
