/** Values shared by every component: 64-bit integers, optional values, classified failures. */
module Prelude {

  const MAX_INT64: int := 0x7fff_ffff_ffff_ffff
  const MIN_INT64: int := -0x8000_0000_0000_0000

  /** Go's int64. Every value stored under this type is proved to be in range. */
  type int64 = x: int | MIN_INT64 <= x <= MAX_INT64

  /** A UUID. The all-zero UUID, which the source reads as "absent", is 0. */
  type Id = nat
  const NO_ID: Id := 0

  /** An instant, in nanoseconds. Go's zero time is 0. */
  type Time = int
  const NO_TIME: Time := 0
  const SECOND: Time := 1_000_000_000
  const HOUR: Time := 3600 * SECOND

  /** A duration as the claim statements receive it, in whole milliseconds. */
  function Millis(d: Time): (r: Time)
    requires d >= 0
    ensures d - 1_000_000 < r <= d
  {
    d / 1_000_000 * 1_000_000
  }

  datatype Option<+T> = None | Some(value: T)

  /** The stable error codes of both the domain and the application layer. NoCode is the empty code. */
  datatype Code =
    | NoCode
    | INVALID_MONEY | INVALID_CURRENCY | INVALID_AMOUNT | INVALID_SCALE | OVERFLOW
    | INVALID_WALLET | INVALID_WAGER | INVALID_STATE | INVALID_LEDGER | INVALID_EVENT
    | INSUFFICIENT_FUNDS | INSUFFICIENT_FUNDS_FOR_REVERSAL | CURRENCY_MISMATCH
    | REFERENCE_NOT_FOUND | REFERENCE_NOT_PROCESSED | REFERENCE_MISMATCH | REFERENCE_ALREADY_REVERSED
    | INVALID_AMOUNT_FOR_KIND | PERMANENT_PROCESSING_FAILURE
    | IDEMPOTENCY_KEY_REUSED | EXTERNAL_TRANSACTION_ID_REUSED | INBOX_MESSAGE_REUSED
    | INVALID_INPUT | INVALID_ID | INVALID_KIND | REFERENCE_REQUIRED | INVALID_CURSOR | INVALID_MESSAGE
    | PLAYER_MISMATCH | WALLET_ALREADY_EXISTS | NOT_FOUND
    | CLAIM_LOST | UNAVAILABLE | RECONCILIATION_OVERFLOW

  /** A Go (value, error) pair of which exactly one half is meaningful. */
  datatype Result<+T> = Ok(value: T) | Fail(code: Code) {
    predicate IsFailure() { Fail? }

    function PropagateFailure<U>(): Result<U>
      requires Fail?
    {
      Fail(code)
    }

    function Extract(): T
      requires Ok?
    {
      value
    }
  }

  function Min(a: int, b: int): int {
    if a < b then a else b
  }

  function Pow2(n: nat): (r: nat)
    ensures r >= 1
  {
    if n == 0 then 1 else 2 * Pow2(n - 1)
  }

  /** The length of a text in UTF-8. */
  function Bytes(s: string): nat {
    if s == "" then 0 else Width(s[0]) + Bytes(s[1..])
  }

  function Width(c: char): nat {
    if c < '\U{80}' then 1 else if c < '\U{800}' then 2 else if c < '\U{10000}' then 3 else 4
  }

  /** Unicode white space, as strings.TrimSpace removes it. */
  predicate IsSpace(c: char) {
    || '\t' <= c <= '\r'
    || c in {' ', '\U{85}', '\U{A0}', '\U{1680}', '\U{2028}', '\U{2029}', '\U{202F}', '\U{205F}', '\U{3000}'}
    || '\U{2000}' <= c <= '\U{200A}'
  }

  /** strings.TrimSpace(s) == "". */
  predicate Blank(s: string) {
    forall c :: c in s ==> IsSpace(c)
  }
}
