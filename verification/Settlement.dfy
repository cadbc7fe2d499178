/**
 * What one `apply` does to a wallet and a wager, as a function of what its statements read
 * (internal/adapters/postgres/process.go and events.go).
 */
module Settlement {
  import opened Prelude
  import opened Money
  import opened Wallet
  import opened Wager
  import opened Ledger

  /** The clock readings and fresh identifiers that one application consumes. */
  datatype Stamps = Stamps(now: Time, dbNow: Time, entryId: Id, wagerEventId: Id, balanceEventId: Id)

  /** What is written back: wallet row, wager row, at most one ledger entry, and the outbox events. */
  datatype Outcome = Outcome(wallet: WalletData, wager: WagerData, entry: Option<LedgerData>, events: seq<Event>)

  /** The correlation and causation that travel with a wager. */
  datatype Trace = Trace(correlation: string, causation: string)

  function MetaOf(id: Id, trace: Trace, now: Time): EventMeta {
    EventMeta(id, trace.correlation, trace.causation, now)
  }

  /** writeEvents: the event of the status reached, then the balance change if there is an entry. */
  function EventsOf(d: WagerData, version: int64, entry: Option<LedgerData>, trace: Trace,
          st: Stamps): Result<seq<Event>> {
    var first :- NewWagerEvent(MetaOf(st.wagerEventId, trace, st.now), d, d.status);
    if entry == None then Ok([first])
    else
      var second :- NewWalletBalanceChanged(MetaOf(st.balanceEventId, trace, st.now), entry.value, version);
      Ok([first, second])
  }

  function Transitioned(d: WagerData, change: Change, now: Time): Result<WagerData> {
    if CanChange(d, change, now) then Ok(Changed(d, change, now)) else Fail(TransitionError(d, change, now))
  }

  function Settle(w: WalletData, d: WagerData, trace: Trace, reference: Option<WagerData>, reversed: bool,
                  expired: bool, st: Stamps): Result<Outcome> {
    var decision :- Evaluate(w, d, reference, reversed);
    if decision.pending && !expired then SettlePending(w, d, trace, st)
    else if decision.pending then SettleRejected(w, d, REFERENCE_NOT_FOUND, trace, st)
    else if decision.failureCode != NoCode then SettleRejected(w, d, decision.failureCode, trace, st)
    else SettleAccepted(w, d, decision.direction, if reference.Some? then reference.value.req.id else NO_ID, trace, st)
  }

  function SettlePending(w: WalletData, d: WagerData, trace: Trace, st: Stamps): Result<Outcome> {
    var next :- Transitioned(d, ToPendingReference, st.now);
    if d.status == PENDING_REFERENCE then Ok(Outcome(w, next, None, []))
    else
      var events :- EventsOf(next, w.version, None, trace, st);
      Ok(Outcome(w, next, None, events))
  }

  function SettleRejected(w: WalletData, d: WagerData, code: Code, trace: Trace, st: Stamps): Result<Outcome> {
    var next :- Transitioned(d, ToRejected(code, w.balance, w.version), st.now);
    var events :- EventsOf(next, w.version, None, trace, st);
    Ok(Outcome(w, next, None, events))
  }

  function SettleAccepted(w: WalletData, d: WagerData, direction: Direction, referenceId: Id, trace: Trace,
          st: Stamps): Result<Outcome> {
    var debit := direction == DEBIT;
    if direction != NONE && MoveError(w, d.req.money, st.now, debit) != NoCode then
      Fail(MoveError(w, d.req.money, st.now, debit))
    else
      var w' := if direction == NONE then w else Moved(w, d.req.money, st.now, debit);
      var next :- Transitioned(d, ToProcessed(w'.balance, w'.version, referenceId), st.now);
      SettleEntered(w, w', next, direction, trace, st)
  }

  /** The ledger entry, if money moved, and the events of a processed wager. */
  function SettleEntered(w: WalletData, w': WalletData, next: WagerData, direction: Direction, trace: Trace,
          st: Stamps): Result<Outcome> {
    if direction == NONE then
      var events :- EventsOf(next, w'.version, None, trace, st);
      Ok(Outcome(w', next, None, events))
    else
      var entry :- NewLedgerEntry(EntryOf(next, direction, w.balance, w'.balance, st.entryId, st.now));
      var stamped := entry.(createdAt := st.dbNow);
      var events :- EventsOf(next, w'.version, Some(stamped), trace, st);
      Ok(Outcome(w', next, Some(stamped), events))
  }

  function EntryOf(d: WagerData, direction: Direction, before: Money, after: Money, id: Id, at: Time): LedgerData {
    LedgerData(id, d.req.walletId, d.req.id, direction, d.req.money, before, after, at)
  }

  // ---------- what a settlement means ----------

  /** Waiting, refused, failed, or a LOSS: the wallet is untouched and nothing enters the ledger. */
  predicate NoMoney(w: WalletData, d: WagerData, out: Outcome) {
    && out.wallet == w && out.entry == None
    && (out.wager.status.Terminal() ==> out.wager.resultBalance == w.balance && out.wager.resultVersion == w.version)
    && (out.wager.status == PROCESSED ==> d.req.kind == LOSS)
  }

  /** Processed with money: one entry, one new version, the result is the new wallet. */
  predicate MovesMoney(w: WalletData, d: WagerData, out: Outcome, dir: Direction) {
    && ValidWallet(w) && w.version < MAX_INT64
    && ValidWallet(out.wallet)
    && out.wallet == w.(balance := out.wallet.balance, version := w.version + 1, updatedAt := out.wallet.updatedAt)
    && out.wallet.balance.currency == w.balance.currency
    && out.wallet.balance.minor == w.balance.minor + Signed(dir, d.req.money.minor)
    && out.wager.status == PROCESSED && d.req.kind != LOSS && d.req.kind != OPENING && dir != NONE
    && out.wager.resultBalance == out.wallet.balance && out.wager.resultVersion == out.wallet.version
    && out.entry.Some? && NewLedgerEntry(out.entry.value).Ok?
    && out.entry.value ==
      EntryOf(out.wager, dir, w.balance, out.wallet.balance, out.entry.value.id, out.entry.value.createdAt)
  }

  /** The events of an outcome: none only for a repeated wait, otherwise the status event and one per entry. */
  predicate EventsFit(d: WagerData, out: Outcome) {
    if d.status == PENDING_REFERENCE == out.wager.status then out.events == []
    else
      && |out.events| == (if out.entry.Some? then 2 else 1)
      && out.events[0].WagerEvent? && out.events[0].data == out.wager
      && (out.entry.Some? ==> out.events[1].BalanceChanged? && out.events[1].entry == out.entry.value
                              && out.events[1].walletVersion == out.wallet.version)
  }

  lemma EventsShape(d: WagerData, version: int64, entry: Option<LedgerData>, trace: Trace, st: Stamps)
    requires EventsOf(d, version, entry, trace, st).Ok?
    ensures var es := EventsOf(d, version, entry, trace, st).value;
      && |es| == (if entry.Some? then 2 else 1)
      && es[0].WagerEvent? && es[0].data == d && ValidWager(d)
      && (entry.Some? ==> es[1].BalanceChanged? && es[1].entry == entry.value && es[1].walletVersion == version
                          && NewLedgerEntry(entry.value).Ok?)
  {
  }

  lemma PendingMeans(w: WalletData, d: WagerData, trace: Trace, st: Stamps)
    requires SettlePending(w, d, trace, st).Ok?
    ensures var out := SettlePending(w, d, trace, st).value;
      && out.wager.req == d.req && ValidWager(out.wager) && EventsFit(d, out)
      && out.wager.status == PENDING_REFERENCE && out.wager.referenceId == d.referenceId && NoMoney(w, d, out)
  {
    var out := SettlePending(w, d, trace, st).value;
    if d.status != PENDING_REFERENCE { EventsShape(out.wager, w.version, None, trace, st); }
  }

  lemma RejectionMeans(w: WalletData, d: WagerData, code: Code, trace: Trace, st: Stamps)
    requires SettleRejected(w, d, code, trace, st).Ok?
    ensures var out := SettleRejected(w, d, code, trace, st).value;
      && out.wager.req == d.req && ValidWager(out.wager) && EventsFit(d, out)
      && out.wager.status == REJECTED && out.wager.failureCode == code && out.wager.referenceId == d.referenceId
      && NoMoney(w, d, out)
  {
    EventsShape(SettleRejected(w, d, code, trace, st).value.wager, w.version, None, trace, st);
  }

  lemma AcceptanceMeans(w: WalletData, d: WagerData, dir: Direction, referenceId: Id, trace: Trace, st: Stamps)
    requires SettleAccepted(w, d, dir, referenceId, trace, st).Ok? && ValidWallet(w) && d.req.kind != OPENING
    requires dir == NONE <==> d.req.kind == LOSS
    requires dir != NONE ==> d.req.money.minor > 0
    ensures var out := SettleAccepted(w, d, dir, referenceId, trace, st).value;
      && out.wager.req == d.req && ValidWager(out.wager) && EventsFit(d, out)
      && out.wager.status == PROCESSED && out.wager.referenceId == referenceId
      && (if dir == NONE then NoMoney(w, d, out) else MovesMoney(w, d, out, dir))
  {
    hide ValidRequest;
    hide Blank;
    var out := SettleAccepted(w, d, dir, referenceId, trace, st).value;
    EventsShape(out.wager, out.wallet.version, out.entry, trace, st);
  }

  /** Every successful settlement either moves money consistently or moves none, and reports itself. */
  lemma SettleMeans(w: WalletData, d: WagerData, trace: Trace, reference: Option<WagerData>, reversed: bool,
                    expired: bool, st: Stamps)
    requires Settle(w, d, trace, reference, reversed, expired, st).Ok?
    ensures var out := Settle(w, d, trace, reference, reversed, expired, st).value;
      var decision := Evaluate(w, d, reference, reversed);
      && decision.Ok?
      && out.wager.req == d.req && ValidWager(out.wager) && ValidWager(d) && !d.status.Terminal() && EventsFit(d, out)
      && d.req.walletId == w.id && d.req.playerId == w.playerId && ValidWallet(w)
      && (out.wager.status == PENDING_REFERENCE <==> decision.value.pending && !expired)
      && (out.wager.status == PROCESSED <==> Accepted(decision))
      && (out.wager.status == REJECTED <==> decision.value.failureCode != NoCode || (decision.value.pending && expired))
      && (if Accepted(decision) && decision.value.direction != NONE then MovesMoney(w, d, out, decision.value.direction)
          else NoMoney(w, d, out))
      && out.wager.referenceId ==
        (if !Accepted(decision) then d.referenceId else if reference.Some? then reference.value.req.id else NO_ID)
      && (expired ==> out.wager.status.Terminal())
  {
    hide SettlePending;
    hide SettleRejected;
    hide SettleAccepted;
    hide ValidRequest;
    hide MovesMoney;
    hide NoMoney;
    hide EventsFit;
    var decision := Evaluate(w, d, reference, reversed).value;
    if decision.pending && !expired {
      PendingMeans(w, d, trace, st);
    } else if decision.pending {
      RejectionMeans(w, d, REFERENCE_NOT_FOUND, trace, st);
    } else if decision.failureCode != NoCode {
      RejectionMeans(w, d, decision.failureCode, trace, st);
    } else {
      AcceptedMeans(w, d, reference, reversed);
      AcceptanceMeans(w, d, decision.direction, if reference.Some? then reference.value.req.id else NO_ID, trace, st);
    }
  }

  /** What a successful settlement writes into the wager: status, code, result, reference and times. */
  lemma SettleSays(w: WalletData, d: WagerData, trace: Trace, reference: Option<WagerData>, reversed: bool,
                   expired: bool, st: Stamps)
    requires Settle(w, d, trace, reference, reversed, expired, st).Ok?
    ensures var out := Settle(w, d, trace, reference, reversed, expired, st).value;
      var decision := Evaluate(w, d, reference, reversed).value;
      var code := if decision.pending && expired then REFERENCE_NOT_FOUND else decision.failureCode;
      && out.wager.failureCode == code && out.wager.updatedAt == st.now && out.wager.req == d.req
      && (out.wager.status == PENDING_REFERENCE ==> out.wager == d.(status := PENDING_REFERENCE, updatedAt := st.now))
      && (out.wager.status == REJECTED ==>
            out.wager == d.(status := REJECTED, failureCode := code, resultBalance := w.balance,
              resultVersion := w.version, updatedAt := st.now, completedAt := Some(st.now)))
      && (out.wager.status == PROCESSED ==>
            out.wager == d.(status := PROCESSED, resultBalance := out.wallet.balance,
              resultVersion := out.wallet.version,
              referenceId := if reference.Some? then reference.value.req.id else NO_ID, updatedAt := st.now,
              completedAt := Some(st.now)))
  {
    hide EventsOf;
    hide ValidRequest;
    hide NewLedgerEntry;
    hide MoveError;
    hide Moved;
    SettleMeans(w, d, trace, reference, reversed, expired, st);
    hide Evaluate;
  }

  /** What it writes into wallet and ledger: nothing, or the amount once, on one side, with its entry. */
  lemma SettleMoves(w: WalletData, d: WagerData, trace: Trace, reference: Option<WagerData>, reversed: bool,
                    expired: bool, st: Stamps)
    requires Settle(w, d, trace, reference, reversed, expired, st).Ok?
    ensures var out := Settle(w, d, trace, reference, reversed, expired, st).value;
      var decision := Evaluate(w, d, reference, reversed).value;
      var dir := if decision.pending || decision.failureCode != NoCode then NONE else decision.direction;
      && (dir == NONE ==> out.wallet == w && out.entry == None)
      && (dir != NONE ==>
            && out.wallet.id == w.id && out.wallet.playerId == w.playerId && out.wallet.createdAt == w.createdAt
            && out.wallet.balance.currency == w.balance.currency
            && out.wallet.balance.minor ==
              (if dir == CREDIT then w.balance.minor + d.req.money.minor else w.balance.minor - d.req.money.minor)
            && out.wallet.version == w.version + 1 && out.wallet.updatedAt == st.now
            && out.entry ==
              Some(LedgerData(st.entryId, w.id, d.req.id, dir, d.req.money, w.balance, out.wallet.balance, st.dbNow)))
  {
    hide EventsOf;
    hide ValidRequest;
    hide NewLedgerEntry;
    SettleMeans(w, d, trace, reference, reversed, expired, st);
    if Accepted(Evaluate(w, d, reference, reversed)) {
      AcceptedMeans(w, d, reference, reversed);
    }
    hide Evaluate;
  }

  /** The events it hands to the outbox: the status reached, unless the wager only waits on, then the movement. */
  lemma SettleTells(w: WalletData, d: WagerData, trace: Trace, reference: Option<WagerData>, reversed: bool,
                    expired: bool, st: Stamps)
    requires Settle(w, d, trace, reference, reversed, expired, st).Ok?
    ensures var out := Settle(w, d, trace, reference, reversed, expired, st).value;
      var status := WagerEvent(EventMeta(st.wagerEventId, trace.correlation, trace.causation, st.now), out.wager);
      if d.status == PENDING_REFERENCE && out.wager.status == PENDING_REFERENCE then out.events == []
      else if out.entry == None then out.events == [status]
      else out.events == [status, BalanceChanged(
        EventMeta(st.balanceEventId, trace.correlation, trace.causation, st.now), out.entry.value, out.wallet.version)]
  {
    hide ValidWager;
    hide NewLedgerEntry;
    hide MoveError;
    hide Moved;
    hide CanChange;
    hide Evaluate;
    hide ValidMeta;
  }

  // ---------- accepted decisions always go through ----------

  /** What an attempt must bring besides the decision: forward clocks, fresh ids, a correlation. */
  predicate Ready(w: WalletData, d: WagerData, trace: Trace, st: Stamps) {
    && st.now != NO_TIME && st.dbNow != NO_TIME
    && w.updatedAt <= st.now && d.updatedAt <= st.now
    && st.entryId != NO_ID && st.wagerEventId != NO_ID && st.balanceEventId != NO_ID
    && !Blank(trace.correlation)
  }

  /**
   * Once Evaluate has answered, the attempt succeeds: the wallet accepts the movement, the wager the
   * transition, the ledger the entry and the outbox the events. Only the version ceiling can stop money.
   */
  lemma DecisionGoesThrough(w: WalletData, d: WagerData, trace: Trace, reference: Option<WagerData>, reversed: bool,
                            expired: bool, st: Stamps)
    requires Evaluate(w, d, reference, reversed).Ok? && Ready(w, d, trace, st)
    requires reference.Some? ==> reference.value.req.id != NO_ID
    ensures Settle(w, d, trace, reference, reversed, expired, st).Ok? <==>
      !(Accepted(Evaluate(w, d, reference, reversed)) && d.req.kind != LOSS && w.version == MAX_INT64)
  {
    var decision := Evaluate(w, d, reference, reversed).value;
    if decision.pending && !expired {
      PendingGoesThrough(w, d, trace, st);
    } else if decision.pending {
      RejectionGoesThrough(w, d, REFERENCE_NOT_FOUND, trace, st);
    } else if decision.failureCode != NoCode {
      RejectionGoesThrough(w, d, decision.failureCode, trace, st);
    } else {
      AcceptedMeans(w, d, reference, reversed);
      var referenceId := if reference.Some? then reference.value.req.id else NO_ID;
      AcceptanceGoesThrough(w, d, decision.direction, referenceId, trace, st);
    }
  }

  lemma PendingGoesThrough(w: WalletData, d: WagerData, trace: Trace, st: Stamps)
    requires ValidWager(d) && !d.status.Terminal() && d.req.refExternal != "" && Ready(w, d, trace, st)
    ensures SettlePending(w, d, trace, st).Ok?
  {
    assert CanChange(d, ToPendingReference, st.now);
  }

  lemma RejectionGoesThrough(w: WalletData, d: WagerData, code: Code, trace: Trace, st: Stamps)
    requires ValidWager(d) && !d.status.Terminal() && ValidWallet(w) && code != NoCode && Ready(w, d, trace, st)
    ensures SettleRejected(w, d, code, trace, st).Ok?
  {
    assert CanChange(d, ToRejected(code, w.balance, w.version), st.now);
  }

  lemma AcceptanceGoesThrough(w: WalletData, d: WagerData, dir: Direction, referenceId: Id, trace: Trace, st: Stamps)
    requires ValidWager(d) && !d.status.Terminal() && ValidWallet(w) && Ready(w, d, trace, st)
    requires d.req.walletId == w.id && d.req.money.currency == w.balance.currency && AmountFits(d.req) &&
      d.req.kind != OPENING
    requires dir == NONE <==> d.req.kind == LOSS
    requires dir == DEBIT ==> d.req.money.minor <= w.balance.minor
    requires dir == CREDIT ==> w.balance.minor + d.req.money.minor <= MAX_INT64
    requires d.req.refExternal != "" ==> referenceId != NO_ID
    ensures SettleAccepted(w, d, dir, referenceId, trace, st).Ok? <==> dir == NONE || w.version < MAX_INT64
  {
    if dir == NONE || w.version < MAX_INT64 {
      var debit := dir == DEBIT;
      var w' := if dir == NONE then w else Moved(w, d.req.money, st.now, debit);
      var change := ToProcessed(w'.balance, w'.version, referenceId);
      assert CanChange(d, change, st.now);
      var next := Changed(d, change, st.now);
      if dir != NONE {
        assert NewLedgerEntry(EntryOf(next, dir, w.balance, w'.balance, st.entryId, st.now)).Ok?;
        var stamped := EntryOf(next, dir, w.balance, w'.balance, st.entryId, st.dbNow);
        assert NewLedgerEntry(stamped).Ok?;
      }
    } else {
      assert MoveError(w, d.req.money, st.now, dir == DEBIT) != NoCode;
    }
  }
}
