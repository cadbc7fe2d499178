/**
 * The PostgreSQL adapter, statement by statement on tables that it updates in place
 * (internal/adapters/postgres/process.go, store.go, work.go, events.go): each transaction
 * leaves exactly what its specification on whole tables says, and nothing when it fails.
 */
module Store {
  import opened Prelude
  import opened Money
  import opened Wallet
  import opened Wager
  import opened Ledger
  import opened Settlement
  import opened Tables
  import opened Runs
  import opened Selection
  import MoneyText

  lemma TransitionRefused(d: WagerData, change: Change, now: Time)
    ensures CanChange(d, change, now) <==> TransitionError(d, change, now) == NoCode
  {
  }

  /** The checks before a new command's row is inserted. */
  function Prepared(db: Db, call: Call, c: Command): Result<(WalletData, WagerRow)>
    requires c.kind.Some?
  {
    if c.walletId !in db.wallets then Fail(NOT_FOUND)
    else if db.wallets[c.walletId].playerId != c.playerId then Fail(PLAYER_MISMATCH)
    else
      var d :- NewWager(RequestOf(c, call.id, call.createdAt));
      if call.id in db.wagers then Fail(UNAVAILABLE) else Ok((db.wallets[c.walletId], NewRow(d, c.trace)))
  }

  lemma NewWagerKeeps(q: Request)
    requires NewWager(q).Ok?
    ensures NewWager(q).value == Fresh(q) && q.kind != OPENING
  {
    hide ValidWager;
  }

  /** A new command is its checks, then its finish on the inserted row. */
  lemma NewOpens(db: Db, call: Call, c: Command)
    requires Shape(db) && c.kind.Some? && FindIdentity(db, c) == Absent
    ensures match Prepared(db, call, c)
      case Fail(code) => ProcessNew(db, call, c) == Fail(code)
      case Ok((w, row)) =>
        && w.id == c.walletId == row.d.req.walletId && w.id in db.wallets && db.wallets[w.id] == w
        && w.id in db.ledger && w.id in db.outbox
        && Placed(Insert(db, row).wagers, db.wallets)
        && ExternalIndex(Insert(db, row).wagers, Insert(db, row).byExternal)
        && var inserted := Insert(db, row);
        var reference := ReadReference(inserted, row.d.req, call.seesForeign);
        ProcessNew(db, call, c) == Finish(db, call, w, row, reference, ReadReversed(inserted.wagers, reference))
  {
    hide ValidWager;
    hide Finish;
    hide InboxClosed;
    hide PayloadHashOf;
    if Prepared(db, call, c).Ok? {
      OpeningInserts(db, call, c);
    }
  }

  lemma OpeningInserts(db: Db, call: Call, c: Command)
    requires Shape(db) && c.kind.Some? && FindIdentity(db, c) == Absent && Prepared(db, call, c).Ok?
    ensures Shape(Insert(db, Prepared(db, call, c).value.1))
  {
    hide ValidWager;
    hide Placed;
    hide InboxClosed;
    hide PayloadHashOf;
    NewWagerKeeps(RequestOf(c, call.id, call.createdAt));
    InsertShape(db, Prepared(db, call, c).value.1);
  }

  /** A settlement never changes which wallet it is about. */
  lemma FinishUnfolds(db: Db, call: Call, w: WalletData, row: WagerRow, reference: Option<WagerData>, reversed: bool)
    requires w.id in db.ledger && w.id in db.outbox
    ensures match Settle(w, row.d, row.trace, reference, reversed, false, call.stamps)
      case Fail(code) => Finish(db, call, w, row, reference, reversed) == Fail(code)
      case Ok(out) =>
        && out.wallet.id == w.id && out.wager.req == row.d.req
        && Finish(db, call, w, row, reference, reversed) ==
          Ok((CompleteInbox(Post(Insert(db, row), Persist(row, out.wager, call.stamps.dbNow), out), call.inbox,
            row.d.req.id, call.stamps.dbNow),
              ResultOf(out.wager, out.wallet, false)))
  {
    hide Settle;
    hide Post;
    hide CompleteInbox;
    hide Persist;
    hide Insert;
    if Settle(w, row.d, row.trace, reference, reversed, false, call.stamps).Ok? {
      SettleMeans(w, row.d, row.trace, reference, reversed, false, call.stamps);
    }
  }

  lemma NoMessageIsReserved(db: Db)
    ensures ReserveInbox(db, None) == Reserved
  {
  }

  lemma SameIdentity(db: Db, db': Db, c: Command)
    requires KeyIndex(db.wagers, db.byKey) && ExternalIndex(db.wagers, db.byExternal) && c.kind.Some?
    requires db'.wagers == db.wagers && db'.byKey == db.byKey && db'.byExternal == db.byExternal
    ensures FindIdentity(db', c) == FindIdentity(db, c)
  {
  }

  function AsReplay(r: Result<Reply>): Result<Option<Reply>> {
    match r
    case Ok(reply) => Ok(Some(reply))
    case Fail(code) => Fail(code)
  }

  /** What a retry writes before it is rescheduled. */
  function Draft(row: WagerRow, w: WalletData, q: Retry, reference: Option<WagerData>,
          reversed: bool): Result<(WagerRow, Outcome)> {
    match Settle(w, row.d, row.trace, reference, reversed, Exhausted(row, q), q.stamps)
    case Ok(out) => Ok((Persist(row, out.wager, q.stamps.dbNow), out))
    case Fail(_) =>
      if !Exhausted(row, q) then Ok((row.(claim := None), Outcome(w, row.d, None, [])))
      else
        var failed :- Transitioned(row.d, ToFailed(PERMANENT_PROCESSING_FAILURE, w.balance, w.version), q.failAt);
        var events :- EventsOf(failed, w.version, None, row.trace, q.stamps.(now := q.failAt));
        Ok((Persist(row, failed, q.stamps.dbNow), Outcome(w, failed, None, events)))
  }

  lemma DraftIsOutcome(row: WagerRow, w: WalletData, q: Retry, reference: Option<WagerData>, reversed: bool)
    ensures match Draft(row, w, q, reference, reversed)
      case Ok((draft, out)) =>
        && RetryOutcome(row, w, q, reference, reversed) == Ok((Rescheduled(draft, q.stamps.dbNow), out))
        && draft.d.req == row.d.req && draft.d == out.wager && draft.attempts == row.attempts
      case Fail(code) => RetryOutcome(row, w, q, reference, reversed) == Fail(code)
  {
    hide EventsOf;
    hide CanChange;
    hide RetryDelay;
    hide Exhausted;
    hide ValidWager;
    if Settle(w, row.d, row.trace, reference, reversed, Exhausted(row, q), q.stamps).Ok? {
      SettleMeans(w, row.d, row.trace, reference, reversed, Exhausted(row, q), q.stamps);
    }
    hide Settle;
  }

  /** The raised counter is nothing that the reads of apply look at. */
  lemma AttemptReadsSame(db: Db, row: WagerRow, seesForeign: bool)
    requires Shape(db) && row.d.req.id in db.wagers && row == Attempted(db.wagers[row.d.req.id])
    ensures var db' := db.(wagers := db.wagers[row.d.req.id := row]);
      && Placed(db'.wagers, db'.wallets) && ExternalIndex(db'.wagers, db'.byExternal)
      && ReadReference(db', row.d.req, seesForeign) == ReadReference(db, row.d.req, seesForeign)
      && var reference := ReadReference(db, row.d.req, seesForeign);
      ReadReversed(db'.wagers, reference) == ReadReversed(db.wagers, reference)
  {
    hide Reversed;
    hide KeyIndex;
    hide InboxClosed;
    var wagers := db.wagers[row.d.req.id := row];
    RewriteShape(db, wagers);
    SameReversals(db.wagers, wagers);
  }

  lemma SameReversals(before: map<Id, WagerRow>, after: map<Id, WagerRow>)
    requires before.Keys == after.Keys && forall id :: id in before ==> after[id].d == before[id].d
    ensures forall id :: Reversed(after, id) == Reversed(before, id)
  {
    forall id ensures Reversed(after, id) == Reversed(before, id) {
      if Reversed(before, id) {
        var r :| r in before && Reverses(before[r].d, id);
        assert Reverses(after[r].d, id);
      }
      if Reversed(after, id) {
        var r :| r in after && Reverses(after[r].d, id);
        assert Reverses(before[r].d, id);
      }
    }
  }

  lemma ClaimedRow(db: Db, q: Retry)
    requires Placed(db.wagers, db.wallets) && q.claim.transactionId in db.wagers &&
      Claimed(db.wagers[q.claim.transactionId], q.claim, q.clock)
    ensures var d := db.wagers[q.claim.transactionId].d;
      d.req.id == q.claim.transactionId && d.req.walletId == q.claim.walletId
  {
  }

  /** Writing a row over its earlier versions. */
  lemma Reposted(db: Db, row: WagerRow, draft: WagerRow, last: WagerRow, out: Outcome)
    requires out.wallet.id in db.ledger && out.wallet.id in db.outbox && row.d.req.id == draft.d.req.id == last.d.req.id
    ensures var posted := Post(db.(wagers := db.wagers[row.d.req.id := row]), draft, out);
      && row.d.req.id in posted.wagers && posted.wagers[row.d.req.id] == draft
      && posted.(wagers := posted.wagers[row.d.req.id := last]) == Post(db, last, out)
  {
  }

  /** application.MaxOutboxBatch. */
  const MAX_BATCH: int := 100

  /** The rows that a claim query may take, by its order; rows locked by others are skipped. */
  function Waiting(wagers: map<Id, WagerRow>, clock: Time, locked: set<Id>): map<Id, Key>
  {
    map id | id in wagers && id !in locked &&
      Claimable(wagers[id], clock) :: Key(wagers[id].nextAttemptAt.value, wagers[id].d.req.createdAt)
  }

  /** The row waits, its time has come, and no claim on it is in force. */
  predicate IsDue(row: WagerRow, clock: Time) {
    && row.d.status == PENDING_REFERENCE && row.nextAttemptAt.Some? && row.nextAttemptAt.value <= clock
    && (row.claim.Some? ==> row.claim.value.until < clock)
  }

  /** The order in which due rows are taken: by the time of the attempt, then of the creation, then by id. */
  predicate DueBefore(wagers: map<Id, WagerRow>, x: Id, y: Id)
    requires x in wagers && wagers[x].nextAttemptAt.Some? && y in wagers && wagers[y].nextAttemptAt.Some?
  {
    var due, due' := wagers[x].nextAttemptAt.value, wagers[y].nextAttemptAt.value;
    var made, made' := wagers[x].d.req.createdAt, wagers[y].d.req.createdAt;
    due < due' || (due == due' && made < made') || (due == due' && made == made' && x < y)
  }

  /**
   * What a claim chooses: rows that are due and not locked, the first ones first; a row that is due and is left comes
   * after every row chosen, and none is left if the limit is not reached.
   */
  lemma ChosenAreDue(wagers: map<Id, WagerRow>, clock: Time, locked: set<Id>, limit: nat, ids: seq<Id>)
    requires Chosen(Waiting(wagers, clock, locked), limit, ids)
    ensures |ids| <= limit
    ensures forall i :: 0 <= i < |ids| ==> ids[i] in wagers && ids[i] !in locked && IsDue(wagers[ids[i]], clock)
    ensures forall i, j :: 0 <= i < j < |ids| ==> DueBefore(wagers, ids[i], ids[j])
    ensures forall id, i ::
      id in wagers && id !in locked && IsDue(wagers[id], clock) && id !in ids && 0 <= i < |ids| ==>
        DueBefore(wagers, ids[i], id)
    ensures |ids| < limit ==>
      forall id :: id in wagers && id !in locked && IsDue(wagers[id], clock) ==> id in ids
  {
    var keys := Waiting(wagers, clock, locked);
    if |ids| < limit {
      ChosenAll(keys, limit, ids);
    }
    forall i | 0 <= i < |ids| ensures ids[i] in keys {}
    forall i, j | 0 <= i < j < |ids| ensures DueBefore(wagers, ids[i], ids[j]) {
      assert Before(keys, ids[i], ids[j]);
    }
  }

  function IdsOf(claims: seq<ReferenceClaim>): (ids: seq<Id>)
    ensures |ids| == |claims| && forall i :: 0 <= i < |ids| ==> ids[i] == claims[i].transactionId
  {
    seq(|claims|, i requires 0 <= i < |claims| => claims[i].transactionId)
  }

  /** One claim after another, each a transaction of its own on its row. */
  function ClaimAll(db: Db, ids: seq<Id>, owner: string, tokens: seq<Id>, until: Time, clock: Time): Db
    requires |ids| <= |tokens|
  {
    if ids == [] then db
    else
      var n := |ids| - 1;
      ClaimReference(ClaimAll(db, ids[..n], owner, tokens, until, clock), ids[n], Claim(owner, tokens[n], until), clock)
  }

  lemma ClaimsNothing(db: Db, ids: seq<Id>, owner: string, tokens: seq<Id>, until: Time, clock: Time)
    ensures ClaimAll(db, ids[..0], owner, tokens, until, clock) == db
  {
  }

  lemma ClaimsOneMore(db: Db, ids: seq<Id>, n: nat, owner: string, tokens: seq<Id>, until: Time, clock: Time)
    requires n < |ids| <= |tokens|
    ensures ClaimAll(db, ids[..n + 1], owner, tokens, until, clock) ==
      ClaimReference(ClaimAll(db, ids[..n], owner, tokens, until, clock), ids[n], Claim(owner, tokens[n], until), clock)
  {
    assert ids[..n + 1][..n] == ids[..n];
  }

  lemma DueIsClaimable(row: WagerRow, clock: Time)
    ensures IsDue(row, clock) <==> Claimable(row, clock)
  {
  }

  /** Together they set the claims of the rows chosen, and nothing else. */
  lemma {:induction false} ClaimsAre(db: Db, ids: seq<Id>, owner: string, tokens: seq<Id>, until: Time, clock: Time)
    requires |ids| <= |tokens| && forall i :: 0 <= i < |ids| ==> ids[i] in db.wagers && IsDue(db.wagers[ids[i]], clock)
    requires forall i, j :: 0 <= i < j < |ids| ==> ids[i] != ids[j]
    ensures var db' := ClaimAll(db, ids, owner, tokens, until, clock);
      && db' == db.(wagers := db'.wagers) && db'.wagers.Keys == db.wagers.Keys
      && (forall i :: 0 <= i < |ids| ==>
        db'.wagers[ids[i]] == db.wagers[ids[i]].(claim := Some(Claim(owner, tokens[i], until))))
      && (forall id :: id in db.wagers && id !in ids ==> db'.wagers[id] == db.wagers[id])
  {
    hide ClaimReference;
    hide Claimable;
    hide IsDue;
    if ids != [] {
      var front, last := ids[..|ids| - 1], ids[|ids| - 1];
      ClaimsAre(db, front, owner, tokens, until, clock);
      var before := ClaimAll(db, front, owner, tokens, until, clock);
      assert last !in front && before.wagers[last] == db.wagers[last];
      DueIsClaimable(db.wagers[last], clock);
      ClaimIsUpdate(before, last, Claim(owner, tokens[|front|], until), clock);
    }
  }

  lemma ClaimIsUpdate(db: Db, id: Id, claim: Claim, clock: Time)
    requires id in db.wagers && Claimable(db.wagers[id], clock)
    ensures ClaimReference(db, id, claim, clock) ==
      db.(wagers := db.wagers[id := db.wagers[id].(claim := Some(claim))])
  {
  }

  function Released(row: WagerRow, owner: string): WagerRow {
    if row.d.status == PENDING_REFERENCE && row.claim.Some? && row.claim.value.owner == owner then row.(claim := None)
      else row
  }

  class Database {
    var wallets: map<Id, WalletData>
    var wagers: map<Id, WagerRow>
    var byKey: map<(string, string), Id>
    var byExternal: map<(string, string), Id>
    var ledger: map<Id, seq<LedgerData>>
    var outbox: map<Id, seq<Event>>
    var inbox: map<(string, string), InboxRow>

    constructor ()
      ensures Contents() == EMPTY
    {
      wallets, wagers, byKey, byExternal := map[], map[], map[], map[];
      ledger, outbox, inbox := map[], map[], map[];
    }

    function Contents(): Db
      reads this
    {
      Db(wallets, wagers, byKey, byExternal, ledger, outbox, inbox)
    }

    /** ROLLBACK, or ROLLBACK TO SAVEPOINT. */
    method Restore(db: Db)
      modifies this
      ensures Contents() == db
    {
      wallets, wagers, byKey, byExternal := db.wallets, db.wagers, db.byKey, db.byExternal;
      ledger, outbox, inbox := db.ledger, db.outbox, db.inbox;
    }

    // ---------- the statements of apply ----------

    method InsertLedger(d: WagerData, direction: Direction, before: Money, after: Money, st: Stamps)
      returns (r: Result<LedgerData>)
      requires d.req.walletId in ledger
      modifies `ledger
      ensures var entry := EntryOf(d, direction, before, after, st.entryId, st.now);
        match NewLedgerEntry(entry)
        case Ok(_) => r == Ok(entry.(createdAt := st.dbNow)) &&
          ledger == old(ledger)[d.req.walletId := old(ledger)[d.req.walletId] + [entry.(createdAt := st.dbNow)]]
        case Fail(code) => r == Fail(code) && ledger == old(ledger)
    {
      var entry :- NewLedgerEntry(EntryOf(d, direction, before, after, st.entryId, st.now));
      // created_at is stamped by the server and read back.
      entry := entry.(createdAt := st.dbNow);
      ledger := ledger[entry.walletId := ledger[entry.walletId] + [entry]];
      return Ok(entry);
    }

    method PersistResult(d: WagerData, dbNow: Time)
      requires d.req.id in wagers
      modifies `wagers
      ensures wagers == old(wagers)[d.req.id := Persist(old(wagers)[d.req.id], d, dbNow)]
    {
      var row := wagers[d.req.id];
      var next := if d.status == PENDING_REFERENCE then Some(dbNow + SECOND) else None;
      wagers := wagers[d.req.id := WagerRow(d, row.trace, row.attempts, next, None)];
    }

    method InsertEvent(e: Event)
      requires e.Aggregate() in outbox
      modifies `outbox
      ensures outbox == old(outbox)[e.Aggregate() := old(outbox)[e.Aggregate()] + [e]]
    {
      outbox := outbox[e.Aggregate() := outbox[e.Aggregate()] + [e]];
    }

    /** The events of one application. A failure may leave the first one behind, for the caller to roll back. */
    method WriteEvents(d: WagerData, version: int64, entry: Option<LedgerData>, trace: Trace, st: Stamps)
      returns (r: Result<()>)
      requires d.req.walletId in outbox && (entry.Some? ==> entry.value.walletId == d.req.walletId)
      modifies `outbox
      ensures match EventsOf(d, version, entry, trace, st)
        case Ok(events) => r == Ok(()) && outbox == old(outbox)[d.req.walletId := old(outbox)[d.req.walletId] + events]
        case Fail(code) => r == Fail(code)
    {
      var meta := MetaOf(st.wagerEventId, trace, st.now);
      var event :- NewWagerEvent(meta, d, d.status);
      InsertEvent(event);
      if entry.Some? {
        meta := meta.(id := st.balanceEventId);
        event :- NewWalletBalanceChanged(meta, entry.value, version);
        InsertEvent(event);
        var wid := d.req.walletId;
        assert outbox[wid] == old(outbox)[wid] + EventsOf(d, version, entry, trace, st).value;
        assert outbox == old(outbox)[wid := outbox[wid]];
      }
      return Ok(());
    }

    // ---------- apply ----------

    /** The reference and whether it has been reversed, as three statements read them. */
    method ReadReferenceRow(q: Request, wid: Id, seesForeign: bool)
      returns (reference: Option<WagerData>, reversed: bool)
      requires q.walletId == wid && ExternalIndex(wagers, byExternal) && Placed(wagers, wallets)
      ensures reference == ReadReference(Contents(), q, seesForeign) && reversed == ReadReversed(wagers, reference)
    {
      reference, reversed := None, false;
      var key := (q.providerId, q.refExternal);
      if q.refExternal != "" && key in byExternal {
        var r := wagers[byExternal[key]].d;
        if r.req.walletId == wid {
          // FOR UPDATE; a reference in another wallet is never locked.
          r := wagers[r.req.id].d;
          reference := Some(r);
        } else if seesForeign {
          reference := Some(r);
        }
        if reference.Some? {
          reversed := Reversed(wagers, r.req.id);
        }
      }
    }

    /** The end of every application: the result row, then the events unless the wager only waits on. */
    method Record(wasWaiting: bool, d: WagerData, after: WalletData, entry: Option<LedgerData>, trace: Trace,
            st: Stamps) returns (r: Result<Reply>)
      requires d.req.id in wagers && d.req.walletId in outbox &&
        (entry.Some? ==> entry.value.walletId == d.req.walletId)
      modifies `wagers, `outbox
      ensures var silent := wasWaiting && d.status == PENDING_REFERENCE; var wid := d.req.walletId;
        match (if silent then Ok([]) else EventsOf(d, after.version, entry, trace, st))
        case Ok(events) =>
          && r == Ok(ResultOf(d, after, false)) && outbox == old(outbox)[wid := old(outbox)[wid] + events]
          && wagers == old(wagers)[d.req.id := Persist(old(wagers)[d.req.id], d, st.dbNow)]
        case Fail(code) => r == Fail(code)
    {
      PersistResult(d, st.dbNow);
      if !(wasWaiting && d.status == PENDING_REFERENCE) {
        var _ :- WriteEvents(d, after.version, entry, trace, st);
      } else {
        assert outbox[d.req.walletId] + [] == outbox[d.req.walletId];
        assert outbox == outbox[d.req.walletId := outbox[d.req.walletId]];
      }
      return Ok(ResultOf(d, after, false));
    }

    /** The tables, ready for a wager of this wallet. */
    ghost predicate Holds(w: WalletData, d: WagerData)
      reads this
    {
      w.id in wallets && wallets[w.id] == w && w.id in ledger && w.id in outbox && d.req.walletId == w.id &&
        d.req.id in wagers
    }

    /** The tables after a successful settlement. */
    ghost predicate Settled(before: Db, d: WagerData, st: Stamps, settlement: Result<Outcome>, r: Result<Reply>)
      requires d.req.id in before.wagers
      reads this
    {
      match settlement
      case Ok(out) =>
        && r == Ok(ResultOf(out.wager, out.wallet, false)) && out.wallet.id == d.req.walletId
        && out.wallet.id in before.ledger && out.wallet.id in before.outbox
        && Contents() == Post(before, Persist(before.wagers[d.req.id], out.wager, st.dbNow), out)
      case Fail(code) => r == Fail(code)
    }

    method Wait(w: WalletData, d: WagerData, trace: Trace, st: Stamps) returns (r: Result<Reply>)
      requires Holds(w, d)
      modifies this
      ensures Settled(old(Contents()), d, st, SettlePending(w, d, trace, st), r)
    {
      var wager := new WagerAggregate(d);
      var e := wager.PendingReference(st.now);
      if e != NoCode { return Fail(e); }
      r := Record(d.status == PENDING_REFERENCE, wager.data, w, None, trace, st);
      assert wallets[w.id := w] == wallets;
    }

    method Refuse(w: WalletData, d: WagerData, code: Code, trace: Trace, st: Stamps) returns (r: Result<Reply>)
      requires Holds(w, d)
      modifies this
      ensures Settled(old(Contents()), d, st, SettleRejected(w, d, code, trace, st), r)
    {
      var wager := new WagerAggregate(d);
      var e := wager.Reject(code, w.balance, w.version, st.now);
      if e != NoCode { return Fail(e); }
      r := Record(d.status == PENDING_REFERENCE, wager.data, w, None, trace, st);
      assert wallets[w.id := w] == wallets;
    }

    /** Debit, credit, or leave the wallet alone. */
    method Shift(w: WalletData, money: Money, direction: Direction, now: Time) returns (r: Result<WalletData>)
      ensures var debit := direction == DEBIT;
        r == if direction == NONE then Ok(w)
             else if MoveError(w, money, now, debit) != NoCode then Fail(MoveError(w, money, now, debit))
             else Ok(Moved(w, money, now, debit))
    {
      var wallet := new WalletAggregate(w);
      var e := NoCode;
      if direction == DEBIT {
        e := wallet.Debit(money, now);
      } else if direction == CREDIT {
        e := wallet.Credit(money, now);
      }
      if e != NoCode { return Fail(e); }
      return Ok(wallet.data);
    }

    /** The wallet and the ledger entry of a movement, if money moves. */
    method Enter(w: WalletData, after: WalletData, d: WagerData, direction: Direction, st: Stamps)
      returns (r: Result<Option<LedgerData>>)
      requires w.id in wallets && wallets[w.id] == w && d.req.walletId == w.id && w.id in ledger
      requires direction == NONE ==> after == w
      modifies `wallets, `ledger
      ensures direction == NONE ==> r == Ok(None) && ledger == old(ledger) && wallets == old(wallets)[w.id := after]
      ensures direction != NONE ==>
        match NewLedgerEntry(EntryOf(d, direction, w.balance, after.balance, st.entryId, st.now))
        case Ok(entry) =>
          var stamped := entry.(createdAt := st.dbNow);
          && r == Ok(Some(stamped)) && wallets == old(wallets)[w.id := after]
          && ledger == old(ledger)[w.id := old(ledger)[w.id] + [stamped]]
        case Fail(code) => r == Fail(code)
    {
      if direction == NONE {
        assert wallets[w.id := w] == wallets;
        return Ok(None);
      }
      wallets := wallets[w.id := after];
      var inserted :- InsertLedger(d, direction, w.balance, after.balance, st);
      return Ok(Some(inserted));
    }

    /** Wallet, ledger, result and events of an accepted wager. */
    method Book(w: WalletData, after: WalletData, d: WagerData, direction: Direction, wasWaiting: bool, trace: Trace,
            st: Stamps) returns (r: Result<Reply>)
      requires Holds(w, d) && d.status == PROCESSED && after.id == w.id && (direction == NONE ==> after == w)
      modifies this
      ensures Settled(old(Contents()), d, st, SettleEntered(w, after, d, direction, trace, st), r)
    {
      hide EventsOf;
      hide NewLedgerEntry;
      hide ResultOf;
      hide Placed;
      var entry :- Enter(w, after, d, direction, st);
      r := Record(wasWaiting, d, after, entry, trace, st);
    }

    /** Move the balance, process the wager, write wallet and ledger. */
    method Accept(w: WalletData, d: WagerData, direction: Direction, referenceId: Id, trace: Trace, st: Stamps)
      returns (r: Result<Reply>)
      requires Holds(w, d)
      modifies this
      ensures Settled(old(Contents()), d, st, SettleAccepted(w, d, direction, referenceId, trace, st), r)
    {
      hide SettleEntered;
      hide ValidWager;
      hide ValidWallet;
      hide MoveError;
      hide Movable;
      hide ResultOf;
      hide CanChange;
      hide TransitionError;
      hide AmountFits;
      hide Placed;
      var after :- Shift(w, d.req.money, direction, st.now);
      var wager := new WagerAggregate(d);
      var e := wager.Process(after.balance, after.version, referenceId, st.now);
      TransitionRefused(d, ToProcessed(after.balance, after.version, referenceId), st.now);
      if e != NoCode { return Fail(e); }
      r := Book(w, after, wager.data, direction, d.status == PENDING_REFERENCE, trace, st);
    }

    /** One application to a locked wallet. What a failure leaves behind is for the caller to roll back. */
    method Apply(w: WalletData, d: WagerData, trace: Trace, expired: bool, st: Stamps, seesForeign: bool)
      returns (r: Result<Reply>)
      requires Placed(wagers, wallets) && ExternalIndex(wagers, byExternal) && Holds(w, d)
      modifies this
      ensures var before := old(Contents()); var reference := ReadReference(before, d.req, seesForeign);
        Settled(before, d, st, Settle(w, d, trace, reference, ReadReversed(before.wagers, reference), expired, st), r)
    {
      var reference, reversed := ReadReferenceRow(d.req, w.id, seesForeign);
      var decision :- Evaluate(w, d, reference, reversed);
      if decision.pending && expired {
        decision := Decision(NONE, false, REFERENCE_NOT_FOUND);
      }
      if decision.pending {
        r := Wait(w, d, trace, st);
      } else if decision.failureCode != NoCode {
        r := Refuse(w, d, decision.failureCode, trace, st);
      } else {
        r := Accept(w, d, decision.direction, if reference.Some? then reference.value.req.id else NO_ID, trace, st);
      }
    }

    // ---------- ProcessWager ----------

    /** The tables of a transaction that has reserved its message: an incomplete inbox row, if there is a message. */
    ghost predicate HasReserved(db: Db, inbox: Option<InboxMessage>)
      reads this
    {
      if inbox == None then Contents() == db
      else
        && ValidMessage(inbox.value) && var key := (inbox.value.consumer, inbox.value.messageId);
        && key !in db.inbox
        && Contents() == db.(inbox := db.inbox[key := InboxRow(inbox.value.digest.value, None, None)])
    }

    /** INSERT ... ON CONFLICT DO NOTHING, then the stored row if there is one. */
    method Reserve(m: InboxMessage) returns (r: Result<Option<Id>>)
      modifies `inbox
      ensures match Tables.ReserveInbox(old(Contents()), Some(m))
        case Reserved => r == Ok(None) && HasReserved(old(Contents()), Some(m))
        case Completed(id) => r == Ok(Some(id)) && Contents() == old(Contents())
        case Refused(code) => r == Fail(code) && Contents() == old(Contents())
    {
      if m.digest == None || m.consumer == "" || m.messageId == "" {
        return Fail(INVALID_INPUT);
      }
      var key := (m.consumer, m.messageId);
      if key !in inbox {
        inbox := inbox[key := InboxRow(m.digest.value, None, None)];
        return Ok(None);
      }
      var stored := inbox[key];
      if stored.digest != m.digest.value {
        return Fail(INBOX_MESSAGE_REUSED);
      }
      if stored.wagerId == None || stored.completedAt == None {
        return Fail(UNAVAILABLE);
      }
      return Ok(stored.wagerId);
    }

    /** UPDATE inbox ... WHERE completed_at IS NULL. */
    method Complete(ghost db: Db, message: Option<InboxMessage>, wagerId: Id, at: Time)
      requires HasReserved(db, message)
      modifies `inbox
      ensures Contents() == CompleteInbox(db, message, wagerId, at)
    {
      if message.Some? {
        var key := (message.value.consumer, message.value.messageId);
        if key in inbox && inbox[key].completedAt == None {
          inbox := inbox[key := inbox[key].(wagerId := Some(wagerId), completedAt := Some(at))];
        }
      }
    }

    method CommitReplay(ghost db: Db, call: Call, d: WagerData) returns (reply: Reply)
      requires HasReserved(db, call.inbox) && d.req.walletId in wallets
      modifies `inbox
      ensures Contents() == CompleteInbox(db, call.inbox, d.req.id, call.stamps.dbNow) &&
        reply == ResultOf(d, db.wallets[d.req.walletId], true)
    {
      var w := wallets[d.req.walletId];
      Complete(db, call.inbox, d.req.id, call.stamps.dbNow);
      return ResultOf(d, w, true);
    }

    /** Lock the wallet, check the player, build and insert the wager. */
    method OpenRow(ghost db: Db, call: Call, c: Command) returns (r: Result<(WalletData, WagerRow)>)
      requires Shape(db) && HasReserved(db, call.inbox) && c.kind.Some? && FindIdentity(db, c) == Absent
      modifies this
      ensures r == Prepared(db, call, c)
      ensures r.Ok? ==> HasReserved(Insert(db, r.value.1), call.inbox)
    {
      hide Placed;
      hide KeyIndex;
      hide ExternalIndex;
      hide InboxClosed;
      hide NewWager;
      hide ValidMessage;
      hide PayloadHashOf;
      if c.walletId !in wallets {
        return Fail(NOT_FOUND);
      }
      var w := wallets[c.walletId];
      if w.playerId != c.playerId {
        return Fail(PLAYER_MISMATCH);
      }
      var d :- NewWager(RequestOf(c, call.id, call.createdAt));
      if call.id in wagers || KeyOf(d.req) in byKey || ExternalOf(d.req) in byExternal {
        // ON CONFLICT DO NOTHING inserted nothing, and the second lookup finds nothing either.
        NewWagerKeeps(RequestOf(c, call.id, call.createdAt));
        return Fail(UNAVAILABLE);
      }
      var row := NewRow(d, c.trace);
      InsertRow(db, call.inbox, row);
      return Ok((w, row));
    }

    /** From the wallet lock to the completed message. */
    method ProcessFresh(ghost db: Db, call: Call, c: Command) returns (r: Result<Reply>)
      requires Shape(db) && HasReserved(db, call.inbox) && c.kind.Some? && FindIdentity(db, c) == Absent
      modifies this
      ensures match ProcessNew(db, call, c)
        case Ok((db', reply)) => r == Ok(reply) && Contents() == db'
        case Fail(code) => r == Fail(code)
    {
      hide Placed;
      hide KeyIndex;
      hide ExternalIndex;
      hide InboxClosed;
      hide Finish;
      hide FindIdentity;
      hide ProcessNew;
      hide HasReserved;
      hide Prepared;
      NewOpens(db, call, c);
      var ready :- OpenRow(db, call, c);
      r := FinishFresh(db, call, ready.0, ready.1);
    }

    method InsertRow(ghost db: Db, ghost inbox: Option<InboxMessage>, row: WagerRow)
      requires HasReserved(db, inbox)
      modifies `wagers, `byKey, `byExternal
      ensures HasReserved(Insert(db, row), inbox)
    {
      var q := row.d.req;
      wagers := wagers[q.id := row];
      byKey := byKey[KeyOf(q) := q.id];
      byExternal := byExternal[ExternalOf(q) := q.id];
    }

    method FinishFresh(ghost db: Db, call: Call, w: WalletData, row: WagerRow) returns (r: Result<Reply>)
      requires var inserted := Insert(db, row);
        Placed(inserted.wagers, inserted.wallets) && ExternalIndex(inserted.wagers, inserted.byExternal)
      requires w.id in db.wallets && w == db.wallets[w.id] && w.id in db.ledger && w.id in db.outbox &&
        row.d.req.walletId == w.id
      requires HasReserved(Insert(db, row), call.inbox)
      modifies this
      ensures var inserted := Insert(db, row); var reference := ReadReference(inserted, row.d.req, call.seesForeign);
        match Finish(db, call, w, row, reference, ReadReversed(inserted.wagers, reference))
        case Ok((db', reply)) => r == Ok(reply) && Contents() == db'
        case Fail(code) => r == Fail(code)
    {
      hide Settle;
      hide Placed;
      hide ValidMessage;
      hide Persist;
      hide Finish;
      hide Post;
      hide CompleteInbox;
      hide ReadReference;
      hide Reversed;
      hide HasReserved;
      ghost var inserted := Insert(db, row);
      ghost var reference := ReadReference(inserted, row.d.req, call.seesForeign);
      ghost var reversed := ReadReversed(inserted.wagers, reference);
      FinishUnfolds(db, call, w, row, reference, reversed);
      r := ApplyReserved(inserted, call.inbox, w, row.d, row.trace, false, call.stamps, call.seesForeign);
      if r.Ok? {
        ghost var out := Settle(w, row.d, row.trace, reference, reversed, false, call.stamps).value;
        Complete(Post(inserted, Persist(row, out.wager, call.stamps.dbNow), out), call.inbox, r.value.transactionId,
          call.stamps.dbNow);
      }
    }

    /** Apply neither reads nor writes the inbox. */
    method ApplyReserved(ghost db: Db, ghost inbox: Option<InboxMessage>, w: WalletData, d: WagerData, trace: Trace,
            expired: bool, st: Stamps, seesForeign: bool)
      returns (r: Result<Reply>)
      requires Placed(db.wagers, db.wallets) && ExternalIndex(db.wagers, db.byExternal) && HasReserved(db, inbox)
      requires w.id in db.wallets && db.wallets[w.id] == w && w.id in db.ledger && w.id in db.outbox &&
        d.req.walletId == w.id && d.req.id in db.wagers
      modifies this
      ensures var reference := ReadReference(db, d.req, seesForeign);
        match Settle(w, d, trace, reference, ReadReversed(db.wagers, reference), expired, st)
        case Ok(out) =>
          && r == Ok(ResultOf(out.wager, out.wallet, false)) && out.wallet.id == w.id && out.wallet.id in db.ledger
          && out.wallet.id in db.outbox
          && HasReserved(Post(db, Persist(db.wagers[d.req.id], out.wager, st.dbNow), out), inbox)
        case Fail(code) => r == Fail(code)
    {
      hide Settle;
      hide Placed;
      hide ExternalIndex;
      hide ValidMessage;
      hide Persist;
      r := Apply(w, d, trace, expired, st, seesForeign);
    }

    /** Reserve the message; the replay of a completed one is still scoped to the provider. */
    method Replay(m: InboxMessage, c: Command) returns (r: Result<Option<Reply>>)
      requires Shape(Contents())
      modifies `inbox
      ensures match Tables.ReserveInbox(old(Contents()), Some(m))
        case Reserved => r == Ok(None) && HasReserved(old(Contents()), Some(m))
        case Completed(id) => Contents() == old(Contents()) && r == AsReplay(InboxReplay(Contents(), c, id))
        case Refused(code) => r == Fail(code)
    {
      hide KeyIndex;
      hide ExternalIndex;
      hide ValidMessage;
      var existing :- Reserve(m);
      if existing == None {
        return Ok(None);
      }
      var d := wagers[existing.value].d;
      if d.req.providerId != c.providerId {
        return Fail(INBOX_MESSAGE_REUSED);
      }
      return Ok(Some(ResultOf(d, wallets[d.req.walletId], true)));
    }

    /** The body of the transaction. What a failure leaves behind is rolled back. */
    method ProcessBody(call: Call, c: Command) returns (r: Result<Reply>)
      requires Shape(Contents()) && NormalizeCommand(call.cmd) == Ok(c)
      modifies this
      ensures match Tables.ProcessWager(old(Contents()), call)
        case Ok((db', reply)) => r == Ok(reply) && Contents() == db'
        case Fail(code) => r == Fail(code)
    {
      hide NormalizeCommand;
      hide ProcessNew;
      hide Placed;
      hide ReserveInbox;
      hide CompleteInbox;
      hide InboxReplay;
      hide ResultOf;
      ghost var db := Contents();
      if call.inbox.Some? {
        var replayed :- Replay(call.inbox.value, c);
        if replayed.Some? {
          return Ok(replayed.value);
        }
      }
      NoMessageIsReserved(db);
      r := Decide(db, call, c);
    }

    /** Look the identity up: a conflict, a replay, or a new command. */
    method Decide(ghost db: Db, call: Call, c: Command) returns (r: Result<Reply>)
      requires Shape(db) && HasReserved(db, call.inbox) && c.kind.Some?
      modifies this
      ensures match FindIdentity(db, c)
        case Conflict(code) => r == Fail(code)
        case Found(d) => d.req.walletId in db.wallets && r == Ok(ResultOf(d, db.wallets[d.req.walletId], true)) &&
          Contents() == CompleteInbox(db, call.inbox, d.req.id, call.stamps.dbNow)
        case Absent =>
          match ProcessNew(db, call, c)
          case Ok((db', reply)) => r == Ok(reply) && Contents() == db'
          case Fail(code) => r == Fail(code)
    {
      hide ProcessNew;
      hide Placed;
      hide InboxClosed;
      hide CompleteInbox;
      hide ResultOf;
      hide ValidMessage;
      hide FindIdentity;
      SameIdentity(db, Contents(), c);
      var identity := FindIdentity(Contents(), c);
      match identity {
        case Conflict(code) =>
          return Fail(code);
        case Found(d) =>
          FoundIsStored(db, c);
          var reply := CommitReplay(db, call, d);
          return Ok(reply);
        case Absent =>
          r := ProcessFresh(db, call, c);
      }
    }

    /** A failed transaction is rolled back whole; a successful one leaves what its specification says. */
    method ProcessWager(call: Call) returns (r: Result<Reply>)
      requires Shape(Contents())
      modifies this
      ensures match Tables.ProcessWager(old(Contents()), call)
        case Ok((db', reply)) => r == Ok(reply) && Contents() == db'
        case Fail(code) => r == Fail(code) && Contents() == old(Contents())
    {
      hide ReserveInbox;
      hide FindIdentity;
      hide ProcessNew;
      hide Placed;
      hide KeyIndex;
      hide ExternalIndex;
      hide InboxClosed;
      hide NormalizeCommand;
      var c :- NormalizeCommand(call.cmd);
      var begin := Contents();
      r := ProcessBody(call, c);
      if r.Fail? {
        Restore(begin);
      }
    }

    // ---------- RetryReference ----------

    method RetryReference(q: Retry) returns (r: Result<Reply>)
      requires Shape(Contents())
      modifies this
      ensures match Tables.RetryReference(old(Contents()), q)
        case Ok((db', reply)) => r == Ok(reply) && Contents() == db'
        case Fail(code) => r == Fail(code) && Contents() == old(Contents())
    {
      hide FinishRetry;
      hide Placed;
      hide KeyIndex;
      hide InboxClosed;
      hide Claimed;
      if q.maxAttempts < 1 || q.ttl <= 0 {
        return Fail(INVALID_INPUT);
      }
      var begin := Contents();
      if q.claim.walletId !in wallets {
        return Fail(NOT_FOUND);
      }
      var w := wallets[q.claim.walletId];
      if q.claim.transactionId !in wagers || !Claimed(wagers[q.claim.transactionId], q.claim, q.clock) {
        return Fail(CLAIM_LOST);
      }
      r := RetryBody(q, w);
      if r.Fail? {
        Restore(begin);
      }
    }

    /** From the raised counter to the rescheduled row. */
    method RetryBody(q: Retry, w: WalletData) returns (r: Result<Reply>)
      requires Shape(Contents()) && w.id == q.claim.walletId && w.id in wallets && wallets[w.id] == w
      requires q.claim.transactionId in wagers && Claimed(wagers[q.claim.transactionId], q.claim, q.clock)
      modifies this
      ensures var db := old(Contents()); var row := Attempted(db.wagers[q.claim.transactionId]);
        var reference := ReadReference(db, row.d.req, q.seesForeign);
        match FinishRetry(db, q, w, row, reference, ReadReversed(db.wagers, reference))
        case Ok((db', reply)) => r == Ok(reply) && Contents() == db'
        case Fail(code) => r == Fail(code)
    {
      hide Draft;
      hide RetryOutcome;
      hide KeyIndex;
      hide InboxClosed;
      hide Claimed;
      hide Placed;
      hide RetryDelay;
      hide Exhausted;
      hide ReadReference;
      hide Reversed;
      hide Post;
      ghost var db := Contents();
      var id := q.claim.transactionId;
      var row := wagers[id].(attempts := wagers[id].attempts + 1);
      ghost var reference := ReadReference(db, row.d.req, q.seesForeign);
      ghost var reversed := ReadReversed(db.wagers, reference);
      ClaimedRow(db, q);
      AttemptReadsSame(db, row, q.seesForeign);
      DraftIsOutcome(row, w, q, reference, reversed);
      wagers := wagers[id := row];
      r := ApplyOrFail(q, w, row);
      if r.Ok? {
        ghost var (draft, out) := Draft(row, w, q, reference, reversed).value;
        Reschedule(db, row, draft, out, r.value.status, q.stamps.dbNow);
      }
    }

    /** A wager that waits on is tried again after a delay. */
    method Reschedule(ghost db: Db, row: WagerRow, ghost draft: WagerRow, ghost out: Outcome, status: Status,
            dbNow: Time)
      requires out.wallet.id in db.ledger && out.wallet.id in db.outbox && row.d.req.id == draft.d.req.id &&
        row.attempts == draft.attempts
      requires Contents() == Post(db.(wagers := db.wagers[row.d.req.id := row]), draft, out) && status == draft.d.status
      modifies `wagers
      ensures Contents() == Post(db, Rescheduled(draft, dbNow), out)
    {
      Reposted(db, row, draft, Rescheduled(draft, dbNow), out);
      Reposted(db, row, draft, draft, out);
      var id := row.d.req.id;
      if status == PENDING_REFERENCE {
        wagers := wagers[id := wagers[id].(nextAttemptAt := Some(dbNow + RetryDelay(row.attempts)))];
      }
    }

    /** Apply behind a savepoint: on failure, back to it, and either the failure is final or the claim is given up. */
    method ApplyOrFail(q: Retry, w: WalletData, row: WagerRow) returns (r: Result<Reply>)
      requires Placed(wagers, wallets) && ExternalIndex(wagers, byExternal) && Holds(w, row.d) &&
        wagers[row.d.req.id] == row
      modifies this
      ensures var before := old(Contents()); var reference := ReadReference(before, row.d.req, q.seesForeign);
        match Draft(row, w, q, reference, ReadReversed(before.wagers, reference))
        case Ok((draft, out)) => r == Ok(ResultOf(draft.d, out.wallet, false)) && out.wallet.id == w.id &&
          Contents() == Post(before, draft, out)
        case Fail(code) => r == Fail(code)
    {
      hide Settle;
      hide EventsOf;
      hide CanChange;
      hide TransitionError;
      hide Placed;
      hide ExternalIndex;
      hide ReadReference;
      hide Reversed;
      hide ResultOf;
      var savepoint := Contents();
      var exhausted := row.attempts >= q.maxAttempts || q.since - row.d.req.createdAt >= q.ttl;
      r := Apply(w, row.d, row.trace, exhausted, q.stamps, q.seesForeign);
      if r.Fail? {
        Restore(savepoint);
        if exhausted {
          r := RecordFailure(q, w, row);
        } else {
          wagers := wagers[row.d.req.id := row.(claim := None)];
          r := Ok(ResultOf(row.d, w, false));
          assert outbox[w.id] + [] == outbox[w.id];
          assert outbox == outbox[w.id := outbox[w.id]];
        }
        assert wallets[w.id := w] == wallets;
      }
    }

    method RecordFailure(q: Retry, w: WalletData, row: WagerRow) returns (r: Result<Reply>)
      requires Holds(w, row.d) && wagers[row.d.req.id] == row
      modifies this
      ensures wallets == old(wallets) && ledger == old(ledger) && byKey == old(byKey) &&
        byExternal == old(byExternal) && inbox == old(inbox)
      ensures var failed := Transitioned(row.d, ToFailed(PERMANENT_PROCESSING_FAILURE, w.balance, w.version), q.failAt);
        match failed
        case Fail(code) => r == Fail(code)
        case Ok(d) =>
          match EventsOf(d, w.version, None, row.trace, q.stamps.(now := q.failAt))
          case Fail(code) => r == Fail(code)
          case Ok(events) =>
            && r == Ok(ResultOf(d, w, false)) && wagers == old(wagers)[row.d.req.id := Persist(row, d, q.stamps.dbNow)]
            && outbox == old(outbox)[w.id := old(outbox)[w.id] + events]
    {
      hide EventsOf;
      hide ValidWager;
      var wager := new WagerAggregate(row.d);
      var change := ToFailed(PERMANENT_PROCESSING_FAILURE, w.balance, w.version);
      var e := wager.Fail(PERMANENT_PROCESSING_FAILURE, w.balance, w.version, q.failAt);
      TransitionRefused(row.d, change, q.failAt);
      if e != NoCode { return Result.Fail(e); }
      r := Record(false, wager.data, w, None, row.trace, q.stamps.(now := q.failAt));
    }

    // ---------- CreateWallet ----------

    method CreateWallet(o: Opening) returns (r: Result<()>)
      modifies this
      ensures match Tables.CreateWallet(old(Contents()), o)
        case Ok(db') => r == Ok(()) && Contents() == db'
        case Fail(code) => r == Fail(code) && Contents() == old(Contents())
    {
      hide OpeningRows;
      if o.playerId == NO_ID {
        return Fail(INVALID_ID);
      }
      if !o.initial.Valid() {
        return Fail(INVALID_CURRENCY);
      }
      var w :- NewWallet(OpeningWallet(o));
      if exists id | id in wallets ::
          wallets[id].playerId == o.playerId && wallets[id].balance.currency == o.initial.currency {
        return Fail(WALLET_ALREADY_EXISTS);
      }
      if o.walletId in wallets || (o.initial.minor > 0 && o.wagerId in wagers) {
        return Fail(UNAVAILABLE);
      }
      var begin := Contents();
      wallets := wallets[w.id := w];
      ledger, outbox := ledger[w.id := []], outbox[w.id := []];
      if o.initial.minor > 0 {
        r := Open(o);
        if r.Fail? {
          Restore(begin);
        }
      } else {
        r := Ok(());
      }
    }

    /** The processed OPENING of a positive balance, its entry and its events. */
    method Open(o: Opening) returns (r: Result<()>)
      requires o.walletId in ledger && o.walletId in outbox && ledger[o.walletId] == [] && outbox[o.walletId] == []
      modifies `wagers, `ledger, `outbox
      ensures match OpeningRows(o)
        case Ok((row, entry, events)) =>
          && r == Ok(()) && wagers == old(wagers)[o.wagerId := row]
          && ledger == old(ledger)[o.walletId := [entry]] && outbox == old(outbox)[o.walletId := events]
        case Fail(code) => r == Fail(code)
    {
      hide NewLedgerEntry;
      hide ValidWager;
      hide EventsOf;
      var d :- NewOpening(OpeningRequest(o));
      var wager := new WagerAggregate(d);
      var e := wager.Process(o.initial, 1, NO_ID, o.now);
      TransitionRefused(d, ToProcessed(o.initial, 1, NO_ID), o.now);
      if e != NoCode { return Fail(e); }
      d := wager.data;
      var trace := Trace(if o.correlation == "" then MoneyText.Decimal(o.walletId) else o.correlation, "");
      wagers := wagers[o.wagerId := WagerRow(d, trace, 0, None, None)];
      var entry :- InsertLedger(d, CREDIT, Money(0, o.initial.currency), o.initial, o.stamps.(now := o.now));
      var _ :- WriteEvents(d, 1, Some(entry), trace, o.stamps.(now := o.now));
      assert [] + [entry] == [entry];
      assert [] + outbox[o.walletId] == outbox[o.walletId];
      assert forall events: seq<Event> :: [] + events == events;
      return Ok(());
    }

    // ---------- claims of waiting references ----------

    /** UPDATE ... SET reference_claimed_by, reference_claim_token, reference_claimed_until. */
    method ClaimReferences(owner: string, limit: int, lease: Time, clock: Time, tokens: seq<Id>, locked: set<Id>)
      returns (r: Result<seq<ReferenceClaim>>)
      requires |tokens| >= limit
      modifies `wagers
      ensures limit < 1 || limit > MAX_BATCH || lease <= 0 || owner == "" ==>
        r == Fail(INVALID_INPUT) && wagers == old(wagers)
      ensures 1 <= limit <= MAX_BATCH && lease > 0 && owner != "" ==>
        && r.Ok? && var ids := IdsOf(r.value);
        && Chosen(Waiting(old(wagers), clock, locked), limit, ids)
        && (forall i :: 0 <= i < |ids| ==>
          r.value[i] == ReferenceClaim(ids[i], old(wagers)[ids[i]].d.req.walletId, tokens[i]))
        && Contents() == ClaimAll(old(Contents()), ids, owner, tokens, clock + Millis(lease), clock)
    {
      if limit < 1 || limit > MAX_BATCH || lease <= 0 || owner == "" {
        return Fail(INVALID_INPUT);
      }
      var chosen := Select(Waiting(wagers, clock, locked), limit);
      var claims := ClaimRows(chosen, owner, tokens, clock + Millis(lease), clock);
      return Ok(claims);
    }

    method ClaimRows(ids: seq<Id>, owner: string, tokens: seq<Id>, until: Time, clock: Time)
      returns (claims: seq<ReferenceClaim>)
      requires |ids| <= |tokens| && forall i :: 0 <= i < |ids| ==> ids[i] in wagers && Claimable(wagers[ids[i]], clock)
      requires forall i, j :: 0 <= i < j < |ids| ==> ids[i] != ids[j]
      modifies `wagers
      ensures IdsOf(claims) == ids
      ensures forall i :: 0 <= i < |ids| ==>
        claims[i] == ReferenceClaim(ids[i], old(wagers)[ids[i]].d.req.walletId, tokens[i])
      ensures Contents() == ClaimAll(old(Contents()), ids, owner, tokens, until, clock)
    {
      hide Claimable;
      hide ClaimAll;
      hide ClaimReference;
      ClaimsNothing(Contents(), ids, owner, tokens, until, clock);
      claims := [];
      while |claims| < |ids|
        invariant |claims| <= |ids| && wagers.Keys == old(wagers).Keys
        invariant forall i :: 0 <= i < |claims| ==>
          claims[i] == ReferenceClaim(ids[i], old(wagers)[ids[i]].d.req.walletId, tokens[i])
        invariant Contents() == ClaimAll(old(Contents()), ids[..|claims|], owner, tokens, until, clock)
        invariant forall i :: |claims| <= i < |ids| ==> wagers[ids[i]] == old(wagers)[ids[i]]
      {
        var n := |claims|;
        ClaimsOneMore(old(Contents()), ids, n, owner, tokens, until, clock);
        ClaimIsUpdate(Contents(), ids[n], Claim(owner, tokens[n], until), clock);
        wagers := wagers[ids[n] := wagers[ids[n]].(claim := Some(Claim(owner, tokens[n], until)))];
        claims := claims + [ReferenceClaim(ids[n], wagers[ids[n]].d.req.walletId, tokens[n])];
      }
      assert ids[..|ids|] == ids;
    }

    /**
     * UPDATE ... WHERE reference_claimed_by = owner: every waiting row of the owner is given up, no other row changes.
     */
    method ReleaseReferences(owner: string)
      modifies `wagers
      ensures wagers.Keys == old(wagers).Keys
      ensures forall id :: id in wagers ==> var row := old(wagers)[id];
        wagers[id] ==
          if row.d.status == PENDING_REFERENCE && row.claim.Some? && row.claim.value.owner == owner
          then row.(claim := None) else row
    {
      var rest := wagers.Keys;
      while rest != {}
        invariant rest <= wagers.Keys == old(wagers).Keys
        invariant forall id :: id in wagers ==>
          wagers[id] == if id in rest then old(wagers)[id] else Released(old(wagers)[id], owner)
      {
        var id :| id in rest;
        if wagers[id].d.status == PENDING_REFERENCE && wagers[id].claim.Some? && wagers[id].claim.value.owner == owner {
          wagers := wagers[id := wagers[id].(claim := None)];
        }
        rest := rest - {id};
      }
    }
  }
}
