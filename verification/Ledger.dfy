/** Ledger entries and events (internal/domain/ledger.go, internal/domain/events.go). */
module Ledger {
  import opened Prelude
  import opened Money
  import opened Wager

  datatype LedgerData = LedgerData(
    id: Id, walletId: Id, transactionId: Id, direction: Direction, money: Money,
    balanceBefore: Money, balanceAfter: Money, createdAt: Time)

  function Signed(direction: Direction, minor: int): int {
    match direction
    case CREDIT => minor
    case DEBIT => -minor
    case NONE => 0
  }

  /** An entry is accepted exactly when before, amount and after balance in one currency. */
  function NewLedgerEntry(e: LedgerData): (r: Result<LedgerData>)
    ensures r.Ok? <==>
      && e.id != NO_ID && e.walletId != NO_ID && e.transactionId != NO_ID && e.createdAt != NO_TIME
      && e.money.Valid() && e.money.minor > 0 && e.direction != NONE
      && e.balanceBefore.currency == e.money.currency == e.balanceAfter.currency
      && e.balanceBefore.minor >= 0 && e.balanceAfter.minor >= 0
      && e.balanceAfter.minor == e.balanceBefore.minor + Signed(e.direction, e.money.minor)
    ensures r.Ok? ==> r.value == e
  {
    if || e.id == NO_ID || e.walletId == NO_ID || e.transactionId == NO_ID || e.createdAt == NO_TIME
       || !e.money.Valid() || e.money.minor <= 0 || !e.balanceBefore.Valid() || !e.balanceAfter.Valid()
       || e.balanceBefore.minor < 0 || e.balanceAfter.minor < 0 then Fail(INVALID_LEDGER)
    else if e.direction == NONE then Fail(INVALID_LEDGER)
    else
      var expected :- if e.direction == DEBIT then Subtract(e.balanceBefore, e.money)
        else Add(e.balanceBefore, e.money);
      var comparison :- Compare(expected, e.balanceAfter);
      if comparison != 0 then Fail(INVALID_LEDGER) else Ok(e)
  }

  datatype EventMeta = EventMeta(id: Id, correlation: string, causation: string, occurredAt: Time)

  /** An outbox event: its type is the status it reports, or a balance change. */
  datatype Event =
    | WagerEvent(meta: EventMeta, data: WagerData)
    | BalanceChanged(meta: EventMeta, entry: LedgerData, walletVersion: int64)
  {
    function Aggregate(): Id {
      if WagerEvent? then data.req.walletId else entry.walletId
    }
  }

  predicate ValidMeta(meta: EventMeta) {
    meta.id != NO_ID && meta.occurredAt != NO_TIME && !Blank(meta.correlation)
  }

  function NewWagerEvent(meta: EventMeta, d: WagerData, expected: Status): Result<Event> {
    if !ValidWager(d) then Fail(ValidateWager(d))
    else if d.status != expected then Fail(INVALID_EVENT)
    else if !ValidMeta(meta) || d.req.walletId == NO_ID then Fail(INVALID_EVENT)
    else Ok(WagerEvent(meta, d))
  }

  function NewWalletBalanceChanged(meta: EventMeta, entry: LedgerData, walletVersion: int64): Result<Event> {
    if NewLedgerEntry(entry).Fail? then Fail(NewLedgerEntry(entry).code)
    else if walletVersion < 1 then Fail(INVALID_EVENT)
    else if !ValidMeta(meta) || entry.walletId == NO_ID then Fail(INVALID_EVENT)
    else Ok(BalanceChanged(meta, entry, walletVersion))
  }
}
