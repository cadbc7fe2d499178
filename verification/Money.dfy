/** Exact money in minor units (internal/domain/money.go). */
module Money {
  import opened Prelude

  /** The zero value of a Go Money carries the unsupported currency "". */
  datatype Currency = BRL | USD | EUR | Unsupported(name: string)

  const NO_CURRENCY := Unsupported("")

  datatype Money = Money(minor: int64, currency: Currency) {
    predicate Valid() {
      ValidCurrency(currency)
    }
  }

  const NO_MONEY := Money(0, NO_CURRENCY)

  predicate ValidCurrency(currency: Currency) {
    !currency.Unsupported?
  }

  function NewMoney(minor: int64, currency: Currency): Result<Money> {
    if !ValidCurrency(currency) then Fail(INVALID_CURRENCY) else Ok(Money(minor, currency))
  }

  function Check(m: Money, other: Money): Code {
    if !m.Valid() || !other.Valid() then INVALID_MONEY
    else if m.currency != other.currency then CURRENCY_MISMATCH
    else NoCode
  }

  // The guards below compare against differences that themselves stay inside int64;
  // binding them with their type makes the verifier check that.

  /** Addition succeeds exactly when the mathematical sum fits, and is then that sum. */
  function Add(m: Money, other: Money): (r: Result<Money>)
    ensures r.Ok? <==> Check(m, other) == NoCode && MIN_INT64 <= m.minor + other.minor <= MAX_INT64
    ensures r.Ok? ==> r.value.minor == m.minor + other.minor && r.value.currency == m.currency == other.currency
    ensures r.Fail? ==> r.code == if Check(m, other) != NoCode then Check(m, other) else OVERFLOW
  {
    if Check(m, other) != NoCode then Fail(Check(m, other))
    else if other.minor > 0 && (var room: int64 := MAX_INT64 - other.minor; m.minor > room) then Fail(OVERFLOW)
    else if other.minor < 0 && (var room: int64 := MIN_INT64 - other.minor; m.minor < room) then Fail(OVERFLOW)
    else NewMoney(m.minor + other.minor, m.currency)
  }

  /** Subtraction succeeds exactly when the mathematical difference fits. */
  function Subtract(m: Money, other: Money): (r: Result<Money>)
    ensures r.Ok? <==> Check(m, other) == NoCode && MIN_INT64 <= m.minor - other.minor <= MAX_INT64
    ensures r.Ok? ==> r.value.minor == m.minor - other.minor && r.value.currency == m.currency == other.currency
    ensures r.Fail? ==> r.code == if Check(m, other) != NoCode then Check(m, other) else OVERFLOW
  {
    if Check(m, other) != NoCode then Fail(Check(m, other))
    else if other.minor > 0 && (var room: int64 := MIN_INT64 + other.minor; m.minor < room) then Fail(OVERFLOW)
    else if other.minor < 0 && (var room: int64 := MAX_INT64 + other.minor; m.minor > room) then Fail(OVERFLOW)
    else NewMoney(m.minor - other.minor, m.currency)
  }

  function Negate(m: Money): (r: Result<Money>)
    ensures r.Ok? <==> m.Valid() && 0 - m.minor <= MAX_INT64
    ensures r.Ok? ==> Add(m, r.value) == NewMoney(0, m.currency)
  {
    if !m.Valid() then Fail(INVALID_MONEY)
    else if m.minor == MIN_INT64 then Fail(OVERFLOW)
    else NewMoney(0 - m.minor, m.currency)
  }

  function Compare(m: Money, other: Money): (r: Result<int>)
    ensures r.Ok? <==> Check(m, other) == NoCode
    ensures r.Ok? ==>
      -1 <= r.value <= 1 && (r.value < 0 <==> m.minor < other.minor) && (r.value > 0 <==> m.minor > other.minor)
  {
    if Check(m, other) != NoCode then Fail(Check(m, other))
    else if m.minor < other.minor then Ok(-1)
    else if m.minor > other.minor then Ok(1)
    else Ok(0)
  }
}
