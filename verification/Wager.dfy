/** The wager transaction: validation, transitions and the decision table (internal/domain/wager.go). */
module Wager {
  import opened Prelude
  import opened Money
  import opened Wallet

  datatype Kind = OPENING | BET | WIN | LOSS | REFUND | ROLLBACK
  datatype Status = PENDING | PENDING_REFERENCE | PROCESSED | REJECTED | FAILED {
    predicate Terminal() { this in {PROCESSED, REJECTED, FAILED} }
  }
  datatype Direction = DEBIT | CREDIT | NONE

  /** What the financial SHA-256 covers. The hash is modelled as injective, by its preimage. */
  datatype Fingerprint = Fingerprint(
    providerId: string, externalId: string, playerId: Id, walletId: Id, roundId: string, gameId: string,
    kind: Kind, money: Money, refExternal: string)
  datatype PayloadHash = NoHash | Sha256(of: Fingerprint)

  /** The columns of a wager that never change once it is inserted. */
  datatype Request = Request(
    id: Id, walletId: Id, playerId: Id, providerId: string, externalId: string, idempotencyKey: string,
    payloadHash: PayloadHash, roundId: string, gameId: string, kind: Kind, money: Money,
    refExternal: string, createdAt: Time)

  /** A wager: its request and the state reached so far. */
  datatype WagerData = WagerData(
    req: Request, status: Status, failureCode: Code, resultBalance: Money, resultVersion: int64,
    referenceId: Id, updatedAt: Time, completedAt: Option<Time>)

  predicate IsReversal(kind: Kind) { kind == REFUND || kind == ROLLBACK }

  predicate ValidRequest(q: Request) {
    && q.id != NO_ID && q.walletId != NO_ID && q.playerId != NO_ID
    && q.money.Valid() && q.money.minor >= 0 && q.createdAt != NO_TIME
    && (if q.kind == OPENING then
          && q.money.minor > 0 && q.providerId == "" && q.externalId == "" && q.idempotencyKey == ""
          && q.payloadHash == NoHash && q.roundId == "" && q.gameId == "" && q.refExternal == ""
        else
          && !Blank(q.providerId) && !Blank(q.externalId) && !Blank(q.idempotencyKey)
          && !Blank(q.roundId) && !Blank(q.gameId) && q.payloadHash != NoHash
          && (IsReversal(q.kind) ==> !Blank(q.refExternal))
          && (q.kind == BET || q.kind == LOSS ==> q.refExternal == ""))
  }

  /** Amounts that may be processed: zero for a LOSS, positive otherwise. */
  predicate AmountFits(q: Request) {
    if q.kind == LOSS then q.money.minor == 0 else q.money.minor > 0
  }

  predicate HasResult(d: WagerData) {
    d.resultBalance.Valid() && d.resultBalance.minor >= 0 && d.resultVersion >= 1
  }

  /** validateWager: NoCode when the snapshot is consistent. */
  function ValidateWager(d: WagerData): Code {
    if !ValidRequest(d.req) || d.updatedAt < d.req.createdAt then INVALID_WAGER
    else if d.req.kind == OPENING && d.referenceId != NO_ID then INVALID_WAGER
    else if d.status == PENDING_REFERENCE && d.req.refExternal == "" then INVALID_STATE
    else if d.status.Terminal() then
      if d.completedAt == None || d.completedAt.value < d.req.createdAt ||
        d.completedAt.value > d.updatedAt then INVALID_STATE
      else if d.status == PROCESSED then
        if d.failureCode != NoCode || !HasResult(d) ||
          d.resultBalance.currency != d.req.money.currency then INVALID_STATE
        else if !AmountFits(d.req) then INVALID_AMOUNT_FOR_KIND
        else if d.req.refExternal != "" && d.referenceId == NO_ID then INVALID_STATE
        else NoCode
      else if d.failureCode == NoCode || !HasResult(d) then INVALID_STATE
      else NoCode
    else if d.completedAt != None || d.failureCode != NoCode || d.resultVersion != 0 ||
      d.resultBalance.Valid() then INVALID_STATE
    else NoCode
  }

  predicate ValidWager(d: WagerData) { ValidateWager(d) == NoCode }

  /** A wager as it is first built: PENDING, nothing decided. */
  function Fresh(q: Request): WagerData {
    WagerData(q, PENDING, NoCode, NO_MONEY, 0, NO_ID, q.createdAt, None)
  }

  function NewWager(q: Request): Result<WagerData> {
    if q.kind == OPENING then Fail(INVALID_WAGER)
    else if !ValidWager(Fresh(q)) then Fail(ValidateWager(Fresh(q)))
    else Ok(Fresh(q))
  }

  function NewOpening(q: Request): Result<WagerData> {
    if q.kind != OPENING then Fail(INVALID_WAGER)
    else if !ValidWager(Fresh(q)) then Fail(ValidateWager(Fresh(q)))
    else Ok(Fresh(q))
  }

  // ---------- transitions ----------

  /** The closures that the four transitions hand to `transition`. */
  datatype Change =
    | ToPendingReference
    | ToProcessed(balance: Money, version: int64, referenceId: Id)
    | ToRejected(code: Code, balance: Money, version: int64)
    | ToFailed(code: Code, balance: Money, version: int64)

  function Changed(d: WagerData, change: Change, now: Time): (r: WagerData)
    ensures r.req == d.req && r.updatedAt == now
    ensures r.completedAt == if r.status.Terminal() then Some(now) else d.completedAt
  {
    var next := match change
      case ToPendingReference => d.(status := PENDING_REFERENCE)
      case ToProcessed(b, v, ref) => d.(status := PROCESSED, resultBalance := b, resultVersion := v, referenceId := ref)
      case ToRejected(c, b, v) => d.(status := REJECTED, failureCode := c, resultBalance := b, resultVersion := v)
      case ToFailed(c, b, v) => d.(status := FAILED, failureCode := c, resultBalance := b, resultVersion := v);
    next.(updatedAt := now, completedAt := if next.status.Terminal() then Some(now) else d.completedAt)
  }

  /** A transition leaves a non-terminal wager, forward in time, to a consistent snapshot. */
  predicate CanChange(d: WagerData, change: Change, now: Time) {
    && ValidWager(d) && !d.status.Terminal()
    && now != NO_TIME && d.updatedAt <= now
    && ValidWager(Changed(d, change, now))
  }

  function TransitionError(d: WagerData, change: Change, now: Time): Code {
    if !ValidWager(d) then ValidateWager(d)
    else if d.status.Terminal() || now == NO_TIME || now < d.updatedAt then INVALID_STATE
    else ValidateWager(Changed(d, change, now))
  }

  /** A balance that a wager can end with, at a version of its wallet. */
  predicate IsResult(balance: Money, version: int64) {
    balance.currency in {BRL, USD, EUR} && balance.minor >= 0 && version >= 1
  }

  /**
   * From a consistent wager, a change is possible exactly if the wager is open, the clock has not gone back, and what
   * the change brings is complete: a reference to wait for; a result in the wager's currency, an amount that its kind
   * takes and the reference that it names; or a code and a result.
   */
  lemma TransitionTable(d: WagerData, change: Change, now: Time)
    requires ValidWager(d)
    ensures CanChange(d, change, now) <==>
      && d.status in {PENDING, PENDING_REFERENCE} && now != NO_TIME && d.updatedAt <= now
      && match change
         case ToPendingReference => d.req.refExternal != ""
         case ToProcessed(balance, version, referenceId) =>
           && IsResult(balance, version) && balance.currency == d.req.money.currency
           && (if d.req.kind == LOSS then d.req.money.minor == 0 else d.req.money.minor > 0)
           && (d.req.refExternal != "" ==> referenceId != NO_ID) && (d.req.kind == OPENING ==> referenceId == NO_ID)
         case ToRejected(code, balance, version) => code != NoCode && IsResult(balance, version)
         case ToFailed(code, balance, version) => code != NoCode && IsResult(balance, version)
    ensures d.status in {PROCESSED, REJECTED, FAILED} || now == NO_TIME || now < d.updatedAt ==>
      TransitionError(d, change, now) == INVALID_STATE
    ensures Changed(d, change, now) == match change
      case ToPendingReference => d.(status := PENDING_REFERENCE, updatedAt := now)
      case ToProcessed(balance, version, referenceId) =>
        d.(status := PROCESSED, resultBalance := balance, resultVersion := version, referenceId := referenceId,
          updatedAt := now, completedAt := Some(now))
      case ToRejected(code, balance, version) =>
        d.(status := REJECTED, failureCode := code, resultBalance := balance, resultVersion := version,
          updatedAt := now, completedAt := Some(now))
      case ToFailed(code, balance, version) =>
        d.(status := FAILED, failureCode := code, resultBalance := balance, resultVersion := version,
          updatedAt := now, completedAt := Some(now))
  {
    hide Blank;
  }

  class WagerAggregate {
    var data: WagerData

    constructor (data: WagerData)
      ensures this.data == data
    {
      this.data := data;
    }

    method PendingReference(now: Time) returns (e: Code)
      modifies this
      ensures e == TransitionError(old(data), ToPendingReference, now)
      ensures data == if e == NoCode then Changed(old(data), ToPendingReference, now) else old(data)
    {
      e := Transition(ToPendingReference, now);
    }

    method Process(balance: Money, version: int64, referenceId: Id, now: Time) returns (e: Code)
      modifies this
      ensures e == TransitionError(old(data), ToProcessed(balance, version, referenceId), now)
      ensures data == if e == NoCode then Changed(old(data), ToProcessed(balance, version, referenceId), now)
        else old(data)
    {
      e := Transition(ToProcessed(balance, version, referenceId), now);
    }

    method Reject(code: Code, balance: Money, version: int64, now: Time) returns (e: Code)
      modifies this
      ensures e == TransitionError(old(data), ToRejected(code, balance, version), now)
      ensures data == if e == NoCode then Changed(old(data), ToRejected(code, balance, version), now) else old(data)
    {
      e := Transition(ToRejected(code, balance, version), now);
    }

    method Fail(code: Code, balance: Money, version: int64, now: Time) returns (e: Code)
      modifies this
      ensures e == TransitionError(old(data), ToFailed(code, balance, version), now)
      ensures data == if e == NoCode then Changed(old(data), ToFailed(code, balance, version), now) else old(data)
    {
      e := Transition(ToFailed(code, balance, version), now);
    }

    /** Either the whole change is taken, or the wager is left exactly as it was. */
    method Transition(change: Change, now: Time) returns (e: Code)
      modifies this
      ensures e == TransitionError(old(data), change, now)
      ensures data == if e == NoCode then Changed(old(data), change, now) else old(data)
      ensures e == NoCode <==> CanChange(old(data), change, now)
    {
      if !ValidWager(data) {
        return ValidateWager(data);
      }
      if data.status.Terminal() {
        return INVALID_STATE;
      }
      if now == NO_TIME || now < data.updatedAt {
        return INVALID_STATE;
      }
      var next := data.(updatedAt := now);
      match change {
        case ToPendingReference =>
          next := next.(status := PENDING_REFERENCE);
        case ToProcessed(b, v, ref) =>
          next := next.(status := PROCESSED, resultBalance := b, resultVersion := v, referenceId := ref);
        case ToRejected(c, b, v) =>
          next := next.(status := REJECTED, failureCode := c, resultBalance := b, resultVersion := v);
        case ToFailed(c, b, v) =>
          next := next.(status := FAILED, failureCode := c, resultBalance := b, resultVersion := v);
      }
      if next.status.Terminal() {
        next := next.(completedAt := Some(now));
      }
      if !ValidWager(next) {
        return ValidateWager(next);
      }
      data := next;
      return NoCode;
    }
  }

  // ---------- the decision table ----------

  datatype Decision = Decision(direction: Direction, pending: bool, failureCode: Code)

  function Reject(code: Code): Result<Decision> { Ok(Decision(NONE, false, code)) }
  function Wait(): Result<Decision> { Ok(Decision(NONE, true, NoCode)) }

  /** The reference belongs to the same provider, player, wallet, currency and round, and is the one named. */
  predicate SameContext(reference: Request, q: Request) {
    && reference.id != q.id && reference.providerId == q.providerId && reference.playerId == q.playerId
    && reference.walletId == q.walletId && reference.money.currency == q.money.currency
    && reference.roundId == q.roundId && reference.externalId == q.refExternal
  }

  /** Which kinds may reference which. */
  predicate KindMayReference(kind: Kind, reference: Kind) {
    && (kind == REFUND || kind == WIN ==> reference == BET)
    && (kind == ROLLBACK ==> reference == BET || reference == WIN || reference == REFUND)
  }

  function Evaluate(wallet: WalletData, d: WagerData, reference: Option<WagerData>,
          alreadyReversed: bool): Result<Decision> {
    var q := d.req;
    if !ValidWallet(wallet) then Fail(INVALID_WALLET)
    else if !ValidWager(d) then Fail(ValidateWager(d))
    else if d.status.Terminal() then Fail(INVALID_STATE)
    else if q.walletId != wallet.id || q.playerId != wallet.playerId then Fail(INVALID_WAGER)
    else if q.money.currency != wallet.balance.currency then Reject(CURRENCY_MISMATCH)
    else if !AmountFits(q) then Reject(INVALID_AMOUNT_FOR_KIND)
    else if q.kind == OPENING then Fail(INVALID_WAGER)
    else if q.refExternal == "" then Effect(wallet, q, BET)
    else if reference == None then Wait()
    else
      var r := reference.value;
      if !SameContext(r.req, q) then Reject(REFERENCE_MISMATCH)
      else if !KindMayReference(q.kind, r.req.kind) then Reject(REFERENCE_MISMATCH)
      else if IsReversal(q.kind) && r.req.money.minor != q.money.minor then Reject(REFERENCE_MISMATCH)
      else if !r.status.Terminal() then Wait()
      else if r.status != PROCESSED then Reject(REFERENCE_NOT_PROCESSED)
      else if IsReversal(q.kind) && alreadyReversed then Reject(REFERENCE_ALREADY_REVERSED)
      else Effect(wallet, q, r.req.kind)
  }

  function DirectionOf(kind: Kind, referenceKind: Kind): Direction {
    match kind
    case BET => DEBIT
    case WIN => CREDIT
    case REFUND => CREDIT
    case ROLLBACK => if referenceKind == BET then CREDIT else DEBIT
    case _ => NONE
  }

  /** The end of the table: the direction, and whether the balance can take it. */
  function Effect(wallet: WalletData, q: Request, referenceKind: Kind): Result<Decision> {
    var direction := DirectionOf(q.kind, referenceKind);
    if direction == DEBIT && q.money.minor > wallet.balance.minor then
      if IsReversal(q.kind) then Reject(INSUFFICIENT_FUNDS_FOR_REVERSAL) else Reject(INSUFFICIENT_FUNDS)
    else if direction == CREDIT && Add(wallet.balance, q.money).Fail? then Reject(OVERFLOW)
    else Ok(Decision(direction, false, NoCode))
  }

  predicate Accepted(r: Result<Decision>) {
    r.Ok? && !r.value.pending && r.value.failureCode == NoCode
  }

  /** Everything an accepted decision guarantees about the wager, its reference and the wallet. */
  lemma AcceptedMeans(w: WalletData, d: WagerData, reference: Option<WagerData>, reversed: bool)
    requires Accepted(Evaluate(w, d, reference, reversed))
    ensures d.req.walletId == w.id && d.req.playerId == w.playerId && d.req.money.currency == w.balance.currency
    ensures AmountFits(d.req) && ValidWager(d) && !d.status.Terminal() && ValidWallet(w)
    ensures if d.req.kind == LOSS then d.req.money.minor == 0
            else d.req.kind in {BET, WIN, REFUND, ROLLBACK} && d.req.money.minor > 0
    ensures d.req.kind in {REFUND, ROLLBACK} ==> d.req.refExternal != "" && reference.Some? && !reversed
    ensures d.req.refExternal != "" ==>
      && reference.Some? && reference.value.status == PROCESSED
      && var q, t := d.req, reference.value.req;
      && t.id != q.id && t.externalId == q.refExternal
      && t.providerId == q.providerId && t.playerId == q.playerId && t.walletId == q.walletId
      && t.money.currency == q.money.currency && t.roundId == q.roundId
      && (q.kind in {WIN, REFUND} ==> t.kind == BET)
      && (q.kind == ROLLBACK ==> t.kind in {BET, WIN, REFUND})
      && (q.kind in {REFUND, ROLLBACK} ==> t.money == q.money)
    ensures var dir := Evaluate(w, d, reference, reversed).value.direction; var kind := d.req.kind;
      && (dir == NONE <==> kind == LOSS)
      && (dir == DEBIT <==> kind == BET || (kind == ROLLBACK && reference.value.req.kind in {WIN, REFUND}))
      && (dir == CREDIT <==> kind in {WIN, REFUND} || (kind == ROLLBACK && reference.value.req.kind == BET))
      && (dir == DEBIT ==> d.req.money.minor <= w.balance.minor)
      && (dir == CREDIT ==> w.balance.minor + d.req.money.minor <= MAX_INT64)
  {
  }

  /** Wallet and wager are consistent, and the wager is open and of this wallet and player. */
  predicate Judgeable(w: WalletData, d: WagerData) {
    && ValidWallet(w) && ValidWager(d) && !d.status.Terminal()
    && d.req.walletId == w.id && d.req.playerId == w.playerId
  }

  /** The wager is also in the currency of the wallet, and of an amount its kind takes: none for a LOSS, else some. */
  predicate Eligible(w: WalletData, d: WagerData) {
    && Judgeable(w, d)
    && d.req.money.currency == w.balance.currency && d.req.kind != OPENING
    && (d.req.kind == LOSS ==> d.req.money.minor == 0) && (d.req.kind != LOSS ==> d.req.money.minor > 0)
  }

  /**
   * The reference is one that the wager may name, whatever has become of it: another wager, the one that carries the
   * external id named, of the same provider, player, wallet, currency and round; a BET for a WIN and for a REFUND, no
   * LOSS, OPENING or ROLLBACK for a ROLLBACK, and of the same amount for both reversals.
   */
  predicate MayName(d: WagerData, r: WagerData) {
    var q, t := d.req, r.req;
    && t.id != q.id && t.externalId == q.refExternal
    && t.providerId == q.providerId && t.playerId == q.playerId && t.walletId == q.walletId
    && t.money.currency == q.money.currency && t.roundId == q.roundId
    && (q.kind in {WIN, REFUND} ==> t.kind == BET)
    && (q.kind == ROLLBACK ==> t.kind in {BET, WIN, REFUND})
    && (q.kind in {REFUND, ROLLBACK} ==> t.money.minor == q.money.minor)
  }

  /** Nothing but the balance stands against the wager. */
  predicate Whole(d: WagerData, reference: Option<WagerData>, reversed: bool) {
    d.req.refExternal != "" ==>
      && reference.Some? && MayName(d, reference.value) && reference.value.status == PROCESSED
      && !(d.req.kind in {REFUND, ROLLBACK} && reversed)
  }

  /** The balance can take the movement. */
  predicate Affords(w: WalletData, d: WagerData, direction: Direction) {
    && (direction == DEBIT ==> d.req.money.minor <= w.balance.minor)
    && (direction == CREDIT ==> w.balance.minor + d.req.money.minor <= MAX_INT64)
  }

  /** The decision table, read from its outcome: exactly when a wager is accepted, waits, or is refused and why. */
  lemma DecisionTable(w: WalletData, d: WagerData, reference: Option<WagerData>, reversed: bool)
    ensures var named := d.req.refExternal != "";
      var direction := DirectionOf(d.req.kind, if named && reference.Some? then reference.value.req.kind else BET);
      var e := Evaluate(w, d, reference, reversed);
      && (e.Fail? <==>
            || !Judgeable(w, d)
            || (d.req.money.currency == w.balance.currency && d.req.money.minor > 0 && d.req.kind == OPENING))
      && (e.Ok? && e.value.failureCode == CURRENCY_MISMATCH <==>
            Judgeable(w, d) && d.req.money.currency != w.balance.currency)
      && (e.Ok? && e.value.failureCode == INVALID_AMOUNT_FOR_KIND <==>
            && Judgeable(w, d) && d.req.money.currency == w.balance.currency
            && (if d.req.kind == LOSS then d.req.money.minor != 0 else d.req.money.minor <= 0))
      && (Accepted(e) <==> Eligible(w, d) && Whole(d, reference, reversed) && Affords(w, d, direction))
      && (e.Ok? && e.value.pending <==>
            Eligible(w, d) && named &&
              (reference.Some? ==> MayName(d, reference.value) && !reference.value.status.Terminal()))
      && (e.Ok? && e.value.failureCode == REFERENCE_MISMATCH <==>
        Eligible(w, d) && named && reference.Some? && !MayName(d, reference.value))
      && (e.Ok? && e.value.failureCode == REFERENCE_NOT_PROCESSED <==>
            Eligible(w, d) && named && reference.Some? && MayName(d, reference.value) &&
              reference.value.status in {REJECTED, FAILED})
      && (e.Ok? && e.value.failureCode == REFERENCE_ALREADY_REVERSED <==>
            && Eligible(w, d) && named && reference.Some? && MayName(d, reference.value)
            && reference.value.status == PROCESSED && d.req.kind in {REFUND, ROLLBACK} && reversed)
      && (e.Ok? && e.value.failureCode == INSUFFICIENT_FUNDS <==>
            && Eligible(w, d) && Whole(d, reference, reversed)
            && direction == DEBIT && !Affords(w, d, direction) && d.req.kind !in {REFUND, ROLLBACK})
      && (e.Ok? && e.value.failureCode == INSUFFICIENT_FUNDS_FOR_REVERSAL <==>
            && Eligible(w, d) && Whole(d, reference, reversed)
            && direction == DEBIT && !Affords(w, d, direction) && d.req.kind in {REFUND, ROLLBACK})
      && (e.Ok? && e.value.failureCode == OVERFLOW <==>
            Eligible(w, d) && Whole(d, reference, reversed) && direction == CREDIT && !Affords(w, d, direction))
      && (e.Ok? ==> e.value.direction == if Accepted(e) then direction else NONE)
  {
    hide ValidRequest;
    hide ValidWallet;
    hide MayName;
    hide SameContext;
    hide KindMayReference;
    PartsAreValid(w, d);
    if reference.Some? {
      NamesRightly(d, reference.value);
    }
  }

  lemma PartsAreValid(w: WalletData, d: WagerData)
    ensures ValidWallet(w) ==> w.balance.Valid() && w.balance.minor >= 0
    ensures ValidWager(d) ==> d.req.money.Valid() && (IsReversal(d.req.kind) ==> d.req.refExternal != "")
  {
  }

  lemma NamesRightly(d: WagerData, r: WagerData)
    ensures MayName(d, r) <==>
      && SameContext(r.req, d.req) && KindMayReference(d.req.kind, r.req.kind)
      && (IsReversal(d.req.kind) ==> r.req.money.minor == d.req.money.minor)
  {
  }

  /** A reference in another wallet gets the same answer whatever its state: only its identity is looked at. */
  lemma ForeignReferenceIsStateless(w: WalletData, d: WagerData, r: WagerData, r': WagerData, b: bool, b': bool)
    requires r.req == r'.req && r.req.walletId != d.req.walletId
    ensures Evaluate(w, d, Some(r), b) == Evaluate(w, d, Some(r'), b')
    ensures !Accepted(Evaluate(w, d, Some(r), b)) || d.req.refExternal == ""
  {
  }
}
