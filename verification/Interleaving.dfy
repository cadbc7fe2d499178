/**
 * Any number of transactions at once, statement by statement: wallet row locks, waits on unique keys,
 * a fresh snapshot per statement, rollback at any point, and commits whose answer may be lost.
 */
module Interleaving {
  import opened Prelude
  import opened Wallet
  import opened Wager
  import opened Settlement
  import opened Tables
  import opened Reachable
  import opened Runs
  import opened Frozen

  // ---------- transactions in progress ----------

  /** What a transaction was started for; cmd is the normalized form of raw. */
  datatype Job =
    | Submit(raw: Command, cmd: Command, inbox: Option<InboxMessage>)
    | Resolve(claim: ReferenceClaim, maxAttempts: int, ttl: Time)

  /** What a working transaction holds: the wallet row as locked, its own wager row, the server clock it read. */
  datatype Work = Work(w: WalletData, row: WagerRow, clock: Time)

  /**
   * How far a transaction has come; each phase is what the statements so far have read. A replay reads the wager,
   * then its wallet without a lock, then completes the message, and only then commits.
   */
  datatype Phase =
    | Begun
    | InboxHit(wagerId: Id)
    | Recalled(d: WagerData)
    | Reserved
    | Missed
    | Locked(w: WalletData)
    | Conflicted(w: WalletData)
    | Replaying(d: WagerData, locked: Option<Id>)
    | Replayed(d: WagerData, locked: Option<Id>, seen: WalletData)
    | Closing(d: WagerData, locked: Option<Id>, seen: WalletData)
    | Working(work: Work)
    | Looked(work: Work, reference: Option<WagerData>)
    | Relocked(work: Work, reference: Option<WagerData>)
    | Judged(work: Work, reference: Option<WagerData>, reversed: bool)
    | Answered(reply: Reply)
    | Failed(code: Code)
    | Ambiguous
    | Stranded

  datatype Tx = Tx(job: Job, phase: Phase) {
    predicate Over() { phase.Answered? || phase.Failed? || phase.Ambiguous? || phase.Stranded? }
    predicate AtWork() { phase.Working? || phase.Looked? || phase.Relocked? || phase.Judged? }
  }

  /** When a claim token was issued, and for how long. */
  datatype Issue = Issue(at: Time, lease: Time)

  /**
   * Committed tables, transactions in progress, the transactions committed so far, deleted messages, the server's
   * clock, and every claim token issued.
   */
  datatype Sys = Sys(
    db: Db, txs: map<nat, Tx>, history: seq<Op>, acked: set<(string, string)>, clock: Time, taken: map<Id, Issue>)

  function MessageKey(m: InboxMessage): (string, string) { (m.consumer, m.messageId) }

  // ---------- locks ----------

  function WalletHeld(tx: Tx): Option<Id> {
    match tx.phase
    case Locked(w) => Some(w.id)
    case Conflicted(w) => Some(w.id)
    case Replaying(_, locked) => locked
    case Replayed(_, locked, _) => locked
    case Closing(_, locked, _) => locked
    case Working(k) => Some(k.w.id)
    case Looked(k, _) => Some(k.w.id)
    case Relocked(k, _) => Some(k.w.id)
    case Judged(k, _, _) => Some(k.w.id)
    case _ => None
  }

  /** The uncommitted inbox row: others that insert the same key wait for it. */
  function InboxHeld(tx: Tx): Option<(string, string)> {
    if tx.job.Resolve? || tx.job.inbox == None || tx.Over() then None
    else if tx.phase.Begun? || tx.phase.InboxHit? || tx.phase.Recalled? then None
    else Some(MessageKey(tx.job.inbox.value))
  }

  /** The uncommitted wager row: others that insert one of its unique keys wait for it. */
  function RowHeld(tx: Tx): Option<Request> {
    if tx.job.Submit? && tx.AtWork() then Some(tx.phase.work.row.d.req) else None
  }

  /** Wager rows locked FOR UPDATE: the claimed row of a retry, and a reference of the same wallet. */
  predicate RowLocked(tx: Tx, id: Id) {
    && tx.AtWork()
    && (|| tx.phase.work.row.d.req.id == id
        || ((tx.phase.Relocked? || tx.phase.Judged?) && tx.phase.reference.Some? &&
          tx.phase.reference.value.req.id == id
            && tx.phase.reference.value.req.walletId == tx.phase.work.w.id))
  }

  /** The wager row that an uncommitted inbox completion refers to: its foreign key keeps others from locking it. */
  predicate RowShared(tx: Tx, id: Id) {
    tx.job.Submit? && tx.job.inbox.Some? && tx.phase.Closing? && tx.phase.d.req.id == id
  }

  predicate SomeoneHoldsWallet(s: Sys, tid: nat, wid: Id) {
    exists u | u in s.txs :: u != tid && WalletHeld(s.txs[u]) == Some(wid)
  }

  predicate SomeoneHoldsInbox(s: Sys, tid: nat, key: (string, string)) {
    exists u | u in s.txs :: u != tid && InboxHeld(s.txs[u]) == Some(key)
  }

  predicate SharesIdentity(q: Request, c: Command) {
    q.providerId == c.providerId && (q.idempotencyKey == c.idempotencyKey || q.externalId == c.externalId)
  }

  predicate SomeoneHoldsIdentity(s: Sys, tid: nat, c: Command) {
    exists u | u in s.txs :: u != tid && RowHeld(s.txs[u]).Some? && SharesIdentity(RowHeld(s.txs[u]).value, c)
  }

  predicate SomeoneLocksRow(s: Sys, id: Id) {
    exists u | u in s.txs :: RowLocked(s.txs[u], id)
  }

  predicate SomeoneSharesRow(s: Sys, id: Id) {
    exists u | u in s.txs :: RowShared(s.txs[u], id)
  }

  predicate SomeoneUsesId(s: Sys, id: Id) {
    exists u | u in s.txs :: RowHeld(s.txs[u]).Some? && RowHeld(s.txs[u]).value.id == id
  }

  /** The next statement of this transaction waits for another transaction to end. */
  predicate Blocked(s: Sys, tid: nat)
    requires tid in s.txs
  {
    var tx := s.txs[tid];
    if tx.phase.Looked? then
      SameWallet(tx.phase.work, tx.phase.reference) && SomeoneSharesRow(s, tx.phase.reference.value.req.id)
    else
      match tx.job
      case Submit(_, c, inbox) =>
        || (tx.phase.Begun? && inbox.Some? && SomeoneHoldsInbox(s, tid, MessageKey(inbox.value)))
        || (tx.phase.Missed? && SomeoneHoldsWallet(s, tid, c.walletId))
        || (tx.phase.Locked? && SomeoneHoldsIdentity(s, tid, c))
        || (tx.phase.Replayed? && inbox.Some? && SomeoneLocksRow(s, tx.phase.d.req.id))
      case Resolve(claim, _, _) =>
        || (tx.phase.Begun? && SomeoneHoldsWallet(s, tid, claim.walletId))
        || (tx.phase.Locked? && SomeoneSharesRow(s, claim.transactionId))
  }

  // ---------- what each phase knows of the committed tables ----------

  /** The committed tables with the transaction's own insert, as its statements see them. */
  function View(db: Db, job: Job, row: WagerRow): Db {
    if job.Submit? then Insert(db, row) else db
  }

  /** A reference that was read is still right where it matters: exactly, in the same wallet; in identity, elsewhere. */
  ghost predicate SeenRight(view: Db, q: Request, reference: Option<WagerData>)
    requires forall k :: k in view.byExternal ==> view.byExternal[k] in view.wagers
  {
    var now := LookupReference(view, q);
    match reference
    case None => now == None || now.value.req.walletId != q.walletId
    case Some(r) => now.Some? && now.value.req == r.req && (r.req.walletId == q.walletId ==> now.value == r)
  }

  ghost predicate HoldsWallet(db: Db, w: WalletData) {
    w.id in db.wallets && db.wallets[w.id] == w
  }

  ghost predicate WorkFits(db: Db, job: Job, k: Work) {
    && HoldsWallet(db, k.w) && k.row.d.req.walletId == k.w.id
    && match job
       case Submit(_, c, _) =>
         && c.kind.Some? && c.walletId == k.w.id && c.playerId == k.w.playerId
         && NewWager(k.row.d.req) == Ok(k.row.d) && k.row == NewRow(k.row.d, c.trace)
         && k.row.d.req == RequestOf(c, k.row.d.req.id, k.row.d.req.createdAt)
         && Insertable(db, k.row)
       case Resolve(claim, max, ttl) =>
         && max >= 1 && ttl > 0 && claim.walletId == k.w.id
         && claim.transactionId in db.wagers && db.wagers[claim.transactionId] == k.row
         && Claimed(k.row, claim, k.clock)
  }

  ghost predicate ReferenceSeen(db: Db, job: Job, k: Work, reference: Option<WagerData>) {
    var view := View(db, job, k.row);
    && ExternalIndex(view.wagers, view.byExternal)
    && SeenRight(view, k.row.d.req, reference)
  }

  predicate SameWallet(k: Work, reference: Option<WagerData>) {
    reference.Some? && reference.value.req.walletId == k.w.id
  }

  ghost predicate IdentityTaken(db: Db, c: Command) {
    (c.providerId, c.idempotencyKey) in db.byKey || (c.providerId, c.externalId) in db.byExternal
  }

  /** A wager as some statement read it: the stored one, which may only have moved on from waiting since. */
  ghost predicate WasRead(db: Db, d: WagerData) {
    && d.req.id in db.wagers && db.wagers[d.req.id].d.req == d.req && ValidWager(d) && d.status != PENDING
    && (d.status.Terminal() ==> db.wagers[d.req.id].d == d)
  }

  /** A replayed identity is stored, under the same request. */
  ghost predicate ReplayFits(db: Db, c: Command, d: WagerData) {
    WasRead(db, d) && Repeats(c, d) && KeyNames(db, c, d.req.id)
  }

  ghost predicate KeyNames(db: Db, c: Command, id: Id) {
    (c.providerId, c.idempotencyKey) in db.byKey && db.byKey[(c.providerId, c.idempotencyKey)] == id
  }

  /** The message of this job is complete, on this wager. */
  ghost predicate MessageNames(db: Db, job: Job, id: Id) {
    job.Submit? && job.inbox.Some? && ReserveInbox(db, job.inbox) == Completed(id)
  }

  /**
   * The answer is about a stored wager, the one the message or the command names; a terminal answer is the frozen one.
   */
  ghost predicate AnswerFits(db: Db, job: Job, reply: Reply) {
    && reply.transactionId in db.wagers
    && (reply.status.Terminal() ==>
          && db.wagers[reply.transactionId].d.status.Terminal()
          && reply == FrozenReply(db.wagers[reply.transactionId].d).(replay := reply.replay))
    && (job.Submit? && job.inbox.Some? ==> MessageNames(db, job, reply.transactionId))
    && (job.Submit? && job.inbox == None ==> KeyNames(db, job.cmd, reply.transactionId))
    && (job.Resolve? ==> reply.transactionId == job.claim.transactionId)
  }

  /** Found under the wallet's lock, the wager is of that wallet and still as it was read. */
  ghost predicate Replays(db: Db, tx: Tx, d: WagerData, locked: Option<Id>) {
    && tx.job.Submit? && ReplayFits(db, tx.job.cmd, d)
    && (locked.Some? ==>
          locked.value == d.req.walletId && locked.value in db.wallets && db.wagers[d.req.id].d == d)
  }

  /** The same for the wallet. */
  ghost predicate ReplaysSeen(db: Db, tx: Tx, d: WagerData, locked: Option<Id>, seen: WalletData) {
    Replays(db, tx, d, locked) && (locked.Some? ==> db.wallets[locked.value] == seen)
  }

  ghost predicate PhaseFits(db: Db, tx: Tx) {
    match tx.phase
    case InboxHit(id) => MessageNames(db, tx.job, id) && id in db.wagers
    case Recalled(d) => MessageNames(db, tx.job, d.req.id) && WasRead(db, d) &&
      d.req.providerId == tx.job.cmd.providerId
    case Reserved => tx.job.Submit?
    case Missed => tx.job.Submit?
    case Locked(w) => HoldsWallet(db, w) &&
      (if tx.job.Submit? then tx.job.cmd.walletId == w.id && tx.job.cmd.playerId == w.playerId
        else tx.job.claim.walletId == w.id)
    case Conflicted(w) =>
      HoldsWallet(db, w) && tx.job.Submit? && tx.job.cmd.walletId == w.id && IdentityTaken(db, tx.job.cmd)
    case Replaying(d, locked) => Replays(db, tx, d, locked)
    case Replayed(d, locked, seen) => ReplaysSeen(db, tx, d, locked, seen)
    case Closing(d, locked, seen) => ReplaysSeen(db, tx, d, locked, seen)
    case Working(k) => WorkFits(db, tx.job, k)
    case Looked(k, reference) => WorkFits(db, tx.job, k) && ReferenceSeen(db, tx.job, k, reference)
    case Relocked(k, reference) => WorkFits(db, tx.job, k) && ReferenceSeen(db, tx.job, k, reference)
    case Judged(k, reference, reversed) =>
      && WorkFits(db, tx.job, k) && ReferenceSeen(db, tx.job, k, reference)
      && (SameWallet(k, reference) ==> reversed == Reversed(View(db, tx.job, k.row).wagers, reference.value.req.id))
    case Answered(reply) => AnswerFits(db, tx.job, reply)
    case Stranded => false
    case _ => true
  }

  ghost predicate TxFits(db: Db, tx: Tx) {
    && (tx.job.Submit? ==> NormalizeCommand(tx.job.raw) == Ok(tx.job.cmd))
    && (tx.job.Resolve? ==> tx.job.maxAttempts >= 1 && tx.job.ttl > 0)
    && (tx.job.Submit? && tx.job.inbox.Some? && !tx.phase.Begun? && !tx.phase.Failed? ==>
      ValidMessage(tx.job.inbox.value))
    && (InboxHeld(tx).Some? ==> InboxHeld(tx).value !in db.inbox)
    && PhaseFits(db, tx)
  }

  /** Two transactions never hold the same lock. */
  predicate Apart(t: Tx, u: Tx) {
    && (WalletHeld(t).Some? ==> WalletHeld(t) != WalletHeld(u))
    && (InboxHeld(t).Some? ==> InboxHeld(t) != InboxHeld(u))
    && (RowHeld(t).Some? && RowHeld(u).Some? ==>
          && RowHeld(t).value.id != RowHeld(u).value.id
          && KeyOf(RowHeld(t).value) != KeyOf(RowHeld(u).value)
          && ExternalOf(RowHeld(t).value) != ExternalOf(RowHeld(u).value))
  }

  ghost predicate AllFit(db: Db, txs: map<nat, Tx>) {
    forall t :: t in txs ==> TxFits(db, txs[t])
  }

  ghost predicate AllApart(txs: map<nat, Tx>) {
    forall t, u :: t in txs && u in txs && t != u ==> Apart(txs[t], txs[u])
  }

  /** What holds in every state of every interleaved run. */
  ghost predicate Safe(s: Sys) {
    && Inv(s.db) && s.db == Run(s.history)
    && AllFit(s.db, s.txs) && AllApart(s.txs)
    && (forall k :: k in s.acked ==> k in s.db.inbox)
  }

  // ---------- steps ----------

  datatype Action =
    | Begin(tid: nat, raw: Command, inbox: Option<InboxMessage>)
    | BeginRetry(tid: nat, claim: ReferenceClaim, maxAttempts: int, ttl: Time)
    | Statement(tid: nat, id: Id, at: Time)
    | Commit(tid: nat, stamps: Stamps, since: Time, failAt: Time, reported: bool)
    | Abort(tid: nat)
    | Acknowledge(tid: nat)
    | Create(o: Opening)
    | ClaimWaiting(id: Id, owner: string, token: Id, lease: Time)
    | ReleaseWaiting(id: Id, owner: string)
    | Tick(d: nat)

  /** The next reading or locking statement of a transaction that is not blocked, on the tables committed so far. */
  function NextPhase(db: Db, tx: Tx, id: Id, at: Time, clock: Time): Phase
    requires Shape(db) && TxFits(db, tx)
  {
    if tx.AtWork() then NextOfWork(db, tx)
    else if tx.job.Submit? then NextOfSubmit(db, tx, id, at)
    else NextOfResolve(db, tx, clock)
  }

  function NextOfWork(db: Db, tx: Tx): Phase
    requires Shape(db) && TxFits(db, tx) && tx.AtWork()
  {
    match tx.phase
    case Working(k) => Looked(k, LookupReference(View(db, tx.job, k.row), k.row.d.req))
    case Looked(k, reference) =>
      if SameWallet(k, reference) then
        var view := View(db, tx.job, k.row);
        if reference.value.req.id in view.wagers then Relocked(k, Some(view.wagers[reference.value.req.id].d))
        else Phase.Failed(NOT_FOUND)
      else Relocked(k, reference)
    case Relocked(k, reference) => Judged(k, reference, ReadReversed(View(db, tx.job, k.row).wagers, reference))
    case _ => tx.phase
  }

  function NextOfSubmit(db: Db, tx: Tx, id: Id, at: Time): Phase
    requires Shape(db) && TxFits(db, tx) && tx.job.Submit?
  {
    var c := tx.job.cmd;
    match tx.phase
    case Begun =>
      (match ReserveInbox(db, tx.job.inbox)
       case Reserved => Phase.Reserved
       case Completed(wagerId) => InboxHit(wagerId)
       case Refused(code) => if code == UNAVAILABLE then Stranded else Phase.Failed(code))
    case InboxHit(wagerId) =>
      var d := db.wagers[wagerId].d;
      if d.req.providerId != c.providerId then Phase.Failed(INBOX_MESSAGE_REUSED) else Recalled(d)
    case Recalled(d) => Answered(ResultOf(d, db.wallets[d.req.walletId], true))
    case Reserved =>
      (match FindIdentity(db, c)
       case Absent => Missed
       case Found(d) => Replaying(d, None)
       case Conflict(code) => Phase.Failed(code))
    case Missed =>
      if c.walletId !in db.wallets then Phase.Failed(NOT_FOUND)
      else if db.wallets[c.walletId].playerId != c.playerId then Phase.Failed(PLAYER_MISMATCH)
      else Locked(db.wallets[c.walletId])
    case Locked(w) =>
      (match NewWager(RequestOf(c, id, at))
       case Fail(code) => Phase.Failed(code)
       case Ok(d) =>
         // INSERT ... ON CONFLICT DO NOTHING
         if (c.providerId, c.idempotencyKey) in db.byKey || (c.providerId, c.externalId) in db.byExternal
           then Conflicted(w)
         else Working(Work(w, NewRow(d, c.trace), NO_TIME)))
    case Conflicted(w) =>
      (match FindIdentity(db, c)
       case Absent => Stranded
       case Found(d) => Replaying(d, Some(w.id))
       case Conflict(code) => Phase.Failed(code))
    case Replaying(d, locked) => Replayed(d, locked, db.wallets[d.req.walletId])
    case Replayed(d, locked, seen) => Closing(d, locked, seen)
    case _ => tx.phase
  }

  function NextOfResolve(db: Db, tx: Tx, clock: Time): Phase
    requires Shape(db) && TxFits(db, tx) && tx.job.Resolve?
  {
    var claim := tx.job.claim;
    match tx.phase
    case Begun =>
      if claim.walletId !in db.wallets then Phase.Failed(NOT_FOUND) else Locked(db.wallets[claim.walletId])
    case Locked(w) =>
      if claim.transactionId !in db.wagers || !Claimed(db.wagers[claim.transactionId], claim, clock)
        then Phase.Failed(CLAIM_LOST)
      else Working(Work(w, db.wagers[claim.transactionId], clock))
    case _ => tx.phase
  }
}
