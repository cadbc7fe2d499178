/**
 * The tables and, as functions on them, the transactions of the engine run one at a time
 * (internal/adapters/postgres/process.go, store.go, work.go; migrations/).
 */
module Tables {
  import opened Prelude
  import opened Money
  import opened Wallet
  import opened Wager
  import opened Ledger
  import opened Settlement
  import MoneyText

  datatype Claim = Claim(owner: string, token: Id, until: Time)

  /** A wager_transaction row. */
  datatype WagerRow = WagerRow(
    d: WagerData, trace: Trace, attempts: nat, nextAttemptAt: Option<Time>, claim: Option<Claim>)

  /** An inbox row, with the SHA-256 of its message. */
  datatype InboxRow = InboxRow(digest: Digest, wagerId: Option<Id>, completedAt: Option<Time>)

  /**
   * The database. The two unique indexes on external identities are maps to the row they admit.
   * Ledger and outbox rows are kept per wallet, in the order in which they were inserted.
   */
  datatype Db = Db(
    wallets: map<Id, WalletData>,
    wagers: map<Id, WagerRow>,
    byKey: map<(string, string), Id>,
    byExternal: map<(string, string), Id>,
    ledger: map<Id, seq<LedgerData>>,
    outbox: map<Id, seq<Event>>,
    inbox: map<(string, string), InboxRow>)

  const EMPTY := Db(map[], map[], map[], map[], map[], map[], map[])

  // ---------- commands ----------

  /** A command with its texts read: NO_ID is no UUID, and a kind that is none of the five is None. */
  datatype Command = Command(
    providerId: string, externalId: string, idempotencyKey: string, playerId: Id, walletId: Id,
    roundId: string, gameId: string, kind: Option<Kind>, money: Money, refExternal: string, trace: Trace)

  /** 32 bytes: the SHA-256 of a queue message, given by its preimage, or any others. */
  datatype Digest = MessageHash(messageType: string, occurredAt: Time, content: Command) | OtherBytes(value: nat)

  const NO_TRACE := Trace("", "")

  /** InboxHash: everything but the transport metadata, the idempotency key included. */
  function InboxHash(messageType: string, occurredAt: Time, c: Command): Digest {
    MessageHash(messageType, occurredAt, c.(trace := NO_TRACE))
  }

  /** digest is None when the payload hash is not 32 hexadecimal bytes. */
  datatype InboxMessage = InboxMessage(consumer: string, messageId: string, digest: Option<Digest>)

  predicate TextIdentity(s: string) {
    s != "" && Bytes(s) <= 256 && !IsSpace(s[0]) && !IsSpace(s[|s| - 1])
  }

  /** What is wrong with a command whose identifiers are in order, if anything. */
  function ContentError(c: Command): (e: Code)
    ensures e == NoCode ==> c.kind.Some?
  {
    if !(TextIdentity(c.providerId) && TextIdentity(c.externalId) && TextIdentity(c.idempotencyKey)
         && TextIdentity(c.roundId) && TextIdentity(c.gameId)) then INVALID_INPUT
    else if Bytes(c.refExternal) > 256 then INVALID_INPUT
    else if !c.money.Valid() then INVALID_CURRENCY
    else if c.money.minor < 0 then INVALID_AMOUNT
    else if c.kind == None || c.kind.value == OPENING then INVALID_KIND
    else if IsReversal(c.kind.value) && c.refExternal == "" then REFERENCE_REQUIRED
    else NoCode
  }

  /** NormalizeCommand. */
  function NormalizeCommand(c: Command): (r: Result<Command>)
    ensures r.Ok? ==> r.value.kind.Some? && r.value == c.(trace := r.value.trace)
  {
    if c.playerId == NO_ID || c.walletId == NO_ID then Fail(INVALID_ID)
    else if ContentError(c) != NoCode then Fail(ContentError(c))
    else if c.trace.correlation == "" then Ok(c.(trace := c.trace.(correlation := c.externalId)))
    else Ok(c)
  }

  /** PayloadHash: everything but the idempotency key and the transport metadata. */
  function PayloadHashOf(c: Command): PayloadHash
    requires c.kind.Some?
  {
    Sha256(Fingerprint(c.providerId, c.externalId, c.playerId, c.walletId, c.roundId, c.gameId,
                       c.kind.value, c.money, c.refExternal))
  }

  function RequestOf(c: Command, id: Id, at: Time): Request
    requires c.kind.Some?
  {
    Request(id, c.walletId, c.playerId, c.providerId, c.externalId, c.idempotencyKey, PayloadHashOf(c),
            c.roundId, c.gameId, c.kind.value, c.money, c.refExternal, at)
  }

  function KeyOf(q: Request): (string, string) { (q.providerId, q.idempotencyKey) }
  function ExternalOf(q: Request): (string, string) { (q.providerId, q.externalId) }

  // ---------- replies ----------

  datatype Reply = Reply(transactionId: Id, status: Status, balance: Money, walletVersion: int64, failureCode: Code,
    replay: bool)

  /** resultOf: a terminal wager answers with its frozen result, any other with the live wallet. */
  function ResultOf(d: WagerData, w: WalletData, replay: bool): Reply {
    if d.status.Terminal() then Reply(d.req.id, d.status, d.resultBalance, d.resultVersion, d.failureCode, replay)
    else Reply(d.req.id, d.status, w.balance, w.version, d.failureCode, replay)
  }

  // ---------- reads ----------

  datatype Identity = Absent | Found(d: WagerData) | Conflict(code: Code)

  /** findIdentity: both unique indexes in one statement, the key match preferred. */
  function FindIdentity(db: Db, c: Command): Identity
    requires c.kind.Some?
    requires forall k :: k in db.byKey ==> db.byKey[k] in db.wagers
    requires forall k :: k in db.byExternal ==> db.byExternal[k] in db.wagers
  {
    var key, external := (c.providerId, c.idempotencyKey), (c.providerId, c.externalId);
    if key !in db.byKey && external !in db.byExternal then Absent
    else
      var d := db.wagers[if key in db.byKey then db.byKey[key] else db.byExternal[external]].d;
      if d.req.idempotencyKey != c.idempotencyKey then Conflict(EXTERNAL_TRANSACTION_ID_REUSED)
      else if d.req.payloadHash != PayloadHashOf(c) then Conflict(IDEMPOTENCY_KEY_REUSED)
      else Found(d)
  }

  /** The row that carries the external id a wager refers to, in any wallet. */
  function LookupReference(db: Db, q: Request): Option<WagerData>
    requires forall k :: k in db.byExternal ==> db.byExternal[k] in db.wagers
  {
    var k := (q.providerId, q.refExternal);
    if q.refExternal == "" || k !in db.byExternal then None else Some(db.wagers[db.byExternal[k]].d)
  }

  /**
   * A reference in another wallet is read without a lock, so a row committed there in the meantime
   * may go unseen: seesForeign says whether this attempt saw it.
   */
  function ReadReference(db: Db, q: Request, seesForeign: bool): Option<WagerData>
    requires forall k :: k in db.byExternal ==> db.byExternal[k] in db.wagers
  {
    var found := LookupReference(db, q);
    if found.Some? && found.value.req.walletId != q.walletId && !seesForeign then None else found
  }

  /** A processed REFUND or ROLLBACK whose resolved reference is id. */
  predicate Reverses(d: WagerData, id: Id) {
    d.status == PROCESSED && IsReversal(d.req.kind) && d.referenceId == id
  }

  predicate Reversed(wagers: map<Id, WagerRow>, id: Id) {
    exists r | r in wagers :: Reverses(wagers[r].d, id)
  }

  function ReadReversed(wagers: map<Id, WagerRow>, reference: Option<WagerData>): bool {
    reference.Some? && Reversed(wagers, reference.value.req.id)
  }

  // ---------- writes ----------

  /** The row of a command that was just inserted. */
  function NewRow(d: WagerData, trace: Trace): WagerRow {
    WagerRow(d, trace, 0, None, None)
  }

  function Insert(db: Db, row: WagerRow): Db {
    var q := row.d.req;
    db.(wagers := db.wagers[q.id := row], byKey := db.byKey[KeyOf(q) := q.id],
      byExternal := db.byExternal[ExternalOf(q) := q.id])
  }

  /** persistResult: the new state, the next attempt of a waiting wager, and no claim. */
  function Persist(row: WagerRow, d: WagerData, dbNow: Time): WagerRow {
    row.(d := d, nextAttemptAt := if d.status == PENDING_REFERENCE then Some(dbNow + SECOND) else None, claim := None)
  }

  /** All rows that one application writes. */
  function Post(db: Db, row: WagerRow, out: Outcome): Db
    requires out.wallet.id in db.ledger && out.wallet.id in db.outbox
  {
    var wid := out.wallet.id;
    db.(wallets := db.wallets[wid := out.wallet],
        wagers := db.wagers[row.d.req.id := row],
        ledger := if out.entry.Some? then db.ledger[wid := db.ledger[wid] + [out.entry.value]] else db.ledger,
        outbox := db.outbox[wid := db.outbox[wid] + out.events])
  }

  function CompleteInbox(db: Db, inbox: Option<InboxMessage>, wagerId: Id, at: Time): Db {
    if inbox == None || inbox.value.digest == None then db
    else db.(inbox := db.inbox[(inbox.value.consumer, inbox.value.messageId) :=
                               InboxRow(inbox.value.digest.value, Some(wagerId), Some(at))])
  }

  // ---------- well-formed tables ----------

  /** Every wager is stored under its id and belongs to a wallet. */
  ghost predicate Placed(wagers: map<Id, WagerRow>, wallets: map<Id, WalletData>) {
    forall id {:trigger wagers[id]} {:trigger id in wagers} :: id in wagers ==>
      wagers[id].d.req.id == id && wagers[id].d.req.walletId in wallets
  }

  /** A unique index on (provider, idempotency key): exactly the external rows, each under its key. */
  ghost predicate KeyIndex(wagers: map<Id, WagerRow>, index: map<(string, string), Id>) {
    && (forall k :: k in index ==>
      index[k] in wagers && KeyOf(wagers[index[k]].d.req) == k && wagers[index[k]].d.req.kind != OPENING)
    && (forall id {:trigger wagers[id]} :: id in wagers && wagers[id].d.req.kind != OPENING ==>
          KeyOf(wagers[id].d.req) in index && index[KeyOf(wagers[id].d.req)] == id)
  }

  /** The same on (provider, external transaction id). */
  ghost predicate ExternalIndex(wagers: map<Id, WagerRow>, index: map<(string, string), Id>) {
    && (forall k :: k in index ==>
      index[k] in wagers && ExternalOf(wagers[index[k]].d.req) == k && wagers[index[k]].d.req.kind != OPENING)
    && (forall id {:trigger wagers[id]} :: id in wagers && wagers[id].d.req.kind != OPENING ==>
          ExternalOf(wagers[id].d.req) in index && index[ExternalOf(wagers[id].d.req)] == id)
  }

  /** Every committed inbox row is complete and names a stored wager. */
  ghost predicate InboxClosed(wagers: map<Id, WagerRow>, inbox: map<(string, string), InboxRow>) {
    forall k :: k in inbox ==> inbox[k].completedAt.Some? && inbox[k].wagerId.Some? && inbox[k].wagerId.value in wagers
  }

  /** What foreign keys, unique indexes and the inbox guard maintain between the tables. */
  ghost predicate Shape(db: Db) {
    && Placed(db.wagers, db.wallets)
    && (forall w :: w in db.wallets ==> db.wallets[w].id == w)
    && db.ledger.Keys == db.wallets.Keys == db.outbox.Keys
    && KeyIndex(db.wagers, db.byKey) && ExternalIndex(db.wagers, db.byExternal)
    && InboxClosed(db.wagers, db.inbox)
  }

  // ---------- ProcessWager ----------

  /** One ProcessWager attempt, with every value it takes from clocks and id sources. */
  datatype Call = Call(cmd: Command, inbox: Option<InboxMessage>, id: Id, createdAt: Time, stamps: Stamps,
    seesForeign: bool)

  /** The inbox insert: reserved, a replay of a completed message, or an error. */
  datatype Reservation = Reserved | Completed(wagerId: Id) | Refused(code: Code)

  predicate ValidMessage(m: InboxMessage) {
    m.digest.Some? && m.consumer != "" && m.messageId != ""
  }

  function ReserveInbox(db: Db, inbox: Option<InboxMessage>): Reservation {
    if inbox == None then Reserved
    else
      var m := inbox.value;
      if !ValidMessage(m) then Refused(INVALID_INPUT)
      else if (m.consumer, m.messageId) !in db.inbox then Reserved
      else
        var row := db.inbox[(m.consumer, m.messageId)];
        if row.digest != m.digest.value then Refused(INBOX_MESSAGE_REUSED)
        else if row.wagerId == None || row.completedAt == None then Refused(UNAVAILABLE)
        else Completed(row.wagerId.value)
  }

  /** An inbox replay is still scoped to the provider of the command. */
  function InboxReplay(db: Db, c: Command, wagerId: Id): Result<Reply>
    requires Shape(db) && wagerId in db.wagers
  {
    var d := db.wagers[wagerId].d;
    if d.req.providerId != c.providerId then Fail(INBOX_MESSAGE_REUSED)
    else Ok(ResultOf(d, db.wallets[d.req.walletId], true))
  }

  /** The end of a new command: settle what was read, write it, complete the inbox. */
  function Finish(db: Db, call: Call, w: WalletData, row: WagerRow, reference: Option<WagerData>,
          reversed: bool): Result<(Db, Reply)>
    requires w.id in db.ledger && w.id in db.outbox
  {
    var out :- Settle(w, row.d, row.trace, reference, reversed, false, call.stamps);
    if out.wallet.id != w.id then Fail(INVALID_WALLET)
    else
      var posted := Post(Insert(db, row), Persist(row, out.wager, call.stamps.dbNow), out);
      Ok((CompleteInbox(posted, call.inbox, row.d.req.id, call.stamps.dbNow), ResultOf(out.wager, out.wallet, false)))
  }

  function ProcessWager(db: Db, call: Call): Result<(Db, Reply)>
    requires Shape(db)
  {
    var c :- NormalizeCommand(call.cmd);
    match ReserveInbox(db, call.inbox)
    case Refused(code) => Fail(code)
    case Completed(wagerId) => var reply :- InboxReplay(db, c, wagerId); Ok((db, reply))
    case Reserved => ProcessIdentity(db, call, c)
  }

  /** A command whose message, if any, is new. */
  function ProcessIdentity(db: Db, call: Call, c: Command): Result<(Db, Reply)>
    requires Shape(db) && c.kind.Some?
  {
    match FindIdentity(db, c)
    case Conflict(code) => Fail(code)
    case Found(d) =>
      Ok((CompleteInbox(db, call.inbox, d.req.id, call.stamps.dbNow), ResultOf(d, db.wallets[d.req.walletId], true)))
    case Absent => ProcessNew(db, call, c)
  }

  /** A command whose identity is new. */
  function ProcessNew(db: Db, call: Call, c: Command): Result<(Db, Reply)>
    requires Shape(db) && c.kind.Some? && FindIdentity(db, c) == Absent
  {
    if c.walletId !in db.wallets then Fail(NOT_FOUND)
    else
      var w := db.wallets[c.walletId];
      if w.playerId != c.playerId then Fail(PLAYER_MISMATCH)
      else
        var d :- NewWager(RequestOf(c, call.id, call.createdAt));
        if call.id in db.wagers then Fail(UNAVAILABLE)
        else
          var row := NewRow(d, c.trace);
          var inserted := Insert(db, row);
          var reference := ReadReference(inserted, d.req, call.seesForeign);
          Finish(db, call, w, row, reference, ReadReversed(inserted.wagers, reference))
  }

  // ---------- reference retry ----------

  datatype ReferenceClaim = ReferenceClaim(transactionId: Id, walletId: Id, token: Id)

  /** One RetryReference attempt. `since` is the reading behind time.Since, `clock` the server's. */
  datatype Retry = Retry(claim: ReferenceClaim, maxAttempts: int, ttl: Time, clock: Time, since: Time,
                         stamps: Stamps, failAt: Time, seesForeign: bool)

  /** The claim is still the caller's: same token, still waiting, lease not over. */
  predicate Claimed(row: WagerRow, claim: ReferenceClaim, clock: Time) {
    && row.d.req.walletId == claim.walletId && row.d.status == PENDING_REFERENCE
    && row.claim.Some? && row.claim.value.token == claim.token && clock < row.claim.value.until
  }

  function RetryDelay(attempts: nat): Time {
    if attempts >= 12 then 3600 * SECOND else Pow2(attempts) * SECOND
  }

  function Exhausted(row: WagerRow, r: Retry): bool {
    row.attempts >= r.maxAttempts || r.since - row.d.req.createdAt >= r.ttl
  }

  /** The attempt counter is raised before anything else. */
  function Attempted(row: WagerRow): WagerRow { row.(attempts := row.attempts + 1) }

  /** The row that a retry leaves, from the row with the raised counter: resolved, failed, or rescheduled. */
  function RetryOutcome(row: WagerRow, w: WalletData, r: Retry, reference: Option<WagerData>,
          reversed: bool): Result<(WagerRow, Outcome)> {
    var exhausted := Exhausted(row, r);
    match Settle(w, row.d, row.trace, reference, reversed, exhausted, r.stamps)
    case Ok(out) => Ok((Rescheduled(Persist(row, out.wager, r.stamps.dbNow), r.stamps.dbNow), out))
    case Fail(_) =>
      // Back to the savepoint: only the raised counter survives of this attempt.
      if !exhausted then Ok((Rescheduled(row.(claim := None), r.stamps.dbNow), Outcome(w, row.d, None, [])))
      else
        var failed :- Transitioned(row.d, ToFailed(PERMANENT_PROCESSING_FAILURE, w.balance, w.version), r.failAt);
        var events :- EventsOf(failed, w.version, None, row.trace, r.stamps.(now := r.failAt));
        Ok((Persist(row, failed, r.stamps.dbNow), Outcome(w, failed, None, events)))
  }

  function Rescheduled(row: WagerRow, dbNow: Time): WagerRow {
    if row.d.status == PENDING_REFERENCE then row.(nextAttemptAt := Some(dbNow + RetryDelay(row.attempts))) else row
  }

  function FinishRetry(db: Db, r: Retry, w: WalletData, row: WagerRow, reference: Option<WagerData>,
          reversed: bool): Result<(Db, Reply)>
    requires w.id in db.ledger && w.id in db.outbox
  {
    var (row', out) :- RetryOutcome(row, w, r, reference, reversed);
    if out.wallet.id != w.id then Fail(INVALID_WALLET)
    else Ok((Post(db, row', out), ResultOf(row'.d, out.wallet, false)))
  }

  function RetryReference(db: Db, r: Retry): Result<(Db, Reply)>
    requires Shape(db)
  {
    if r.maxAttempts < 1 || r.ttl <= 0 then Fail(INVALID_INPUT)
    else if r.claim.walletId !in db.wallets then Fail(NOT_FOUND)
    else if r.claim.transactionId !in db.wagers ||
      !Claimed(db.wagers[r.claim.transactionId], r.claim, r.clock) then Fail(CLAIM_LOST)
    else
      var row := Attempted(db.wagers[r.claim.transactionId]);
      var reference := ReadReference(db, row.d.req, r.seesForeign);
      FinishRetry(db, r, db.wallets[r.claim.walletId], row, reference, ReadReversed(db.wagers, reference))
  }

  // ---------- claims of waiting references ----------

  predicate Claimable(row: WagerRow, clock: Time) {
    && row.d.status == PENDING_REFERENCE
    && row.nextAttemptAt.Some? && row.nextAttemptAt.value <= clock
    && (row.claim.Some? ==> row.claim.value.until < clock)
  }

  function ClaimReference(db: Db, id: Id, claim: Claim, clock: Time): Db {
    if id in db.wagers &&
      Claimable(db.wagers[id], clock) then db.(wagers := db.wagers[id := db.wagers[id].(claim := Some(claim))])
    else db
  }

  function ReleaseReference(db: Db, id: Id, owner: string): Db {
    if id in db.wagers && db.wagers[id].d.status == PENDING_REFERENCE && db.wagers[id].claim.Some? &&
      db.wagers[id].claim.value.owner == owner
    then db.(wagers := db.wagers[id := db.wagers[id].(claim := None)])
    else db
  }

  // ---------- CreateWallet ----------

  datatype Opening = Opening(playerId: Id, initial: Money, correlation: string, walletId: Id, wagerId: Id, now: Time,
    stamps: Stamps)

  function OpeningRequest(o: Opening): Request {
    Request(o.wagerId, o.walletId, o.playerId, "", "", "", NoHash, "", "", OPENING, o.initial, "", o.now)
  }

  function OpeningWallet(o: Opening): WalletData {
    WalletData(o.walletId, o.playerId, o.initial, 1, o.now, o.now)
  }

  /** The rows of a positive opening: the processed OPENING, its entry, and its two events. */
  function OpeningRows(o: Opening): Result<(WagerRow, LedgerData, seq<Event>)> {
    var d :- NewOpening(OpeningRequest(o));
    var processed :- Transitioned(d, ToProcessed(o.initial, 1, NO_ID), o.now);
    var entry :- NewLedgerEntry(EntryOf(processed, CREDIT, Money(0, o.initial.currency), o.initial, o.stamps.entryId,
      o.now));
    var trace := Trace(if o.correlation == "" then MoneyText.Decimal(o.walletId) else o.correlation, "");
    var stamped := entry.(createdAt := o.stamps.dbNow);
    var events :- EventsOf(processed, 1, Some(stamped), trace, o.stamps.(now := o.now));
    Ok((WagerRow(processed, trace, 0, None, None), stamped, events))
  }

  function CreateWallet(db: Db, o: Opening): Result<Db> {
    if o.playerId == NO_ID then Fail(INVALID_ID)
    else if !o.initial.Valid() then Fail(INVALID_CURRENCY)
    else
      var w :- NewWallet(OpeningWallet(o));
      if exists id | id in db.wallets :: db.wallets[id].playerId == o.playerId &&
        db.wallets[id].balance.currency == o.initial.currency
        then Fail(WALLET_ALREADY_EXISTS)
      else if o.walletId in db.wallets || (o.initial.minor > 0 && o.wagerId in db.wagers) then Fail(UNAVAILABLE)
      else if o.initial.minor == 0 then Ok(AddWallet(db, w, [], []))
      else
        var (row, entry, events) :- OpeningRows(o);
        var created := AddWallet(db, w, [entry], events);
        Ok(created.(wagers := created.wagers[o.wagerId := row]))
  }

  function AddWallet(db: Db, w: WalletData, entries: seq<LedgerData>, events: seq<Event>): Db {
    db.(wallets := db.wallets[w.id := w], ledger := db.ledger[w.id := entries], outbox := db.outbox[w.id := events])
  }

  // ---------- runs, one transaction at a time ----------

  datatype Op =
    | OpCreate(o: Opening)
    | OpProcess(call: Call)
    | OpRetry(r: Retry)
    | OpClaim(id: Id, claim: Claim, clock: Time)
    | OpRelease(id: Id, owner: string)

  /** A transaction that fails leaves the tables as they were. */
  function Step(db: Db, op: Op): Db
    requires Shape(db)
  {
    match op
    case OpCreate(o) => var r := CreateWallet(db, o); if r.Ok? then r.value else db
    case OpProcess(call) => var r := ProcessWager(db, call); if r.Ok? then r.value.0 else db
    case OpRetry(r) => var x := RetryReference(db, r); if x.Ok? then x.value.0 else db
    case OpClaim(id, claim, clock) => ClaimReference(db, id, claim, clock)
    case OpRelease(id, owner) => ReleaseReference(db, id, owner)
  }
}
