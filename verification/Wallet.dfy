/** The wallet aggregate (internal/domain/wallet.go). */
module Wallet {
  import opened Prelude
  import opened Money

  datatype WalletData = WalletData(
    id: Id, playerId: Id, balance: Money, version: int64, createdAt: Time, updatedAt: Time)

  predicate ValidWallet(w: WalletData) {
    && w.id != NO_ID && w.playerId != NO_ID
    && w.balance.Valid() && w.balance.minor >= 0
    && w.version >= 1
    && w.createdAt != NO_TIME && w.createdAt <= w.updatedAt
  }

  function RehydrateWallet(w: WalletData): Result<WalletData> {
    if ValidWallet(w) then Ok(w) else Fail(INVALID_WALLET)
  }

  function NewWallet(w: WalletData): Result<WalletData> {
    if w.version != 1 then Fail(INVALID_WALLET) else RehydrateWallet(w)
  }

  /** When a movement is possible at all: the amount, the clock, the version and the resulting balance. */
  predicate Movable(w: WalletData, money: Money, now: Time, debit: bool) {
    && ValidWallet(w) && Check(w.balance, money) == NoCode
    && money.minor >= 0
    && now != NO_TIME && w.updatedAt <= now
    && (money.minor > 0 ==> w.version < MAX_INT64)
    && (if debit then money.minor <= w.balance.minor else w.balance.minor + money.minor <= MAX_INT64)
  }

  /** Why `move` refuses, checked in its order. */
  function MoveError(w: WalletData, money: Money, now: Time, debit: bool): (e: Code)
    ensures e == NoCode <==> Movable(w, money, now, debit)
  {
    if !ValidWallet(w) then INVALID_WALLET
    else if Check(w.balance, money) != NoCode then Check(w.balance, money)
    else if money.minor < 0 then INVALID_AMOUNT
    else if now == NO_TIME || now < w.updatedAt then INVALID_WALLET
    else if money.minor == 0 then NoCode
    else if w.version == MAX_INT64 then OVERFLOW
    else if debit && money.minor > w.balance.minor then INSUFFICIENT_FUNDS
    else if !debit && w.balance.minor + money.minor > MAX_INT64 then OVERFLOW
    else NoCode
  }

  /** The wallet after a possible movement. A zero movement changes nothing, not even the version. */
  function Moved(w: WalletData, money: Money, now: Time, debit: bool): (r: WalletData)
    requires Movable(w, money, now, debit)
    ensures ValidWallet(r)
    ensures r.balance.minor == w.balance.minor + (if debit then -1 else 1) * money.minor
    ensures r.version - w.version == if money.minor == 0 then 0 else 1
  {
    if money.minor == 0 then w
    else w.(balance := Money(w.balance.minor + (if debit then -1 else 1) * money.minor, w.balance.currency),
            version := w.version + 1, updatedAt := now)
  }

  /** Each refusal of a movement, and when it is the one given. */
  lemma MoveTable(w: WalletData, money: Money, now: Time, debit: bool)
    requires ValidWallet(w) && money.currency in {BRL, USD, EUR}
    ensures var e := MoveError(w, money, now, debit);
      var priced := money.currency == w.balance.currency && money.minor >= 0;
      var timed := priced && now != NO_TIME && w.updatedAt <= now;
      && (e == CURRENCY_MISMATCH <==> money.currency != w.balance.currency)
      && (e == INVALID_AMOUNT <==> money.currency == w.balance.currency && money.minor < 0)
      && (e == INVALID_WALLET <==> priced && !timed)
      && (e == OVERFLOW <==>
            && timed && money.minor > 0
            && (w.version == MAX_INT64 || (!debit && w.balance.minor + money.minor > MAX_INT64)))
      && (e == INSUFFICIENT_FUNDS <==>
            timed && money.minor > 0 && w.version < MAX_INT64 && debit && money.minor > w.balance.minor)
  {
  }

  class WalletAggregate {
    var data: WalletData

    constructor (data: WalletData)
      ensures this.data == data
    {
      this.data := data;
    }

    method Credit(money: Money, now: Time) returns (e: Code)
      modifies this
      ensures e == MoveError(old(data), money, now, false)
      ensures data == if e == NoCode then Moved(old(data), money, now, false) else old(data)
    {
      e := Move(money, now, false);
    }

    method Debit(money: Money, now: Time) returns (e: Code)
      modifies this
      ensures e == MoveError(old(data), money, now, true)
      ensures data == if e == NoCode then Moved(old(data), money, now, true) else old(data)
    {
      e := Move(money, now, true);
    }

    /** A movement happens exactly when it is possible, and a refused one leaves the wallet as it was. */
    method Move(money: Money, now: Time, debit: bool) returns (e: Code)
      modifies this
      ensures e == MoveError(old(data), money, now, debit)
      ensures e == NoCode <==> Movable(old(data), money, now, debit)
      ensures data == if e == NoCode then Moved(old(data), money, now, debit) else old(data)
    {
      if !ValidWallet(data) {
        return INVALID_WALLET;
      }
      if Check(data.balance, money) != NoCode {
        return Check(data.balance, money);
      }
      if money.minor < 0 {
        return INVALID_AMOUNT;
      }
      if now == NO_TIME || now < data.updatedAt {
        return INVALID_WALLET;
      }
      if money.minor == 0 {
        return NoCode;
      }
      if data.version == MAX_INT64 {
        return OVERFLOW;
      }
      var next: Result<Money>;
      if debit {
        if money.minor > data.balance.minor {
          return INSUFFICIENT_FUNDS;
        }
        next := Subtract(data.balance, money);
      } else {
        next := Add(data.balance, money);
      }
      if next.Fail? {
        return next.code;
      }
      data := data.(balance := next.value, version := data.version + 1, updatedAt := now);
      return NoCode;
    }
  }
}
