/**
 * What the transactions answer and write, row by row and field by field: how identities and references are found, when
 * each refusal is given, and what a first answer says (internal/adapters/postgres/process.go, store.go).
 */
module Answers {
  import opened Prelude
  import opened Money
  import opened Wallet
  import opened Wager
  import opened Ledger
  import opened Settlement
  import opened Tables
  import opened Runs
  import MoneyText
  import Store

  // ---------- identities and references ----------

  /** The wager was submitted by this provider under this idempotency key. */
  predicate HasKey(db: Db, id: Id, provider: string, key: string) {
    && id in db.wagers && db.wagers[id].d.req.kind != OPENING
    && db.wagers[id].d.req.providerId == provider && db.wagers[id].d.req.idempotencyKey == key
  }

  /** The wager was submitted by this provider under this external transaction id. */
  predicate HasExternal(db: Db, id: Id, provider: string, external: string) {
    && id in db.wagers && db.wagers[id].d.req.kind != OPENING
    && db.wagers[id].d.req.providerId == provider && db.wagers[id].d.req.externalId == external
  }

  /**
   * A command repeats the wager of its provider and key if the content is the same, and misuses the key if it is not;
   * only if there is no such wager, it misuses the external id of another one.
   */
  lemma IdentityTable(db: Db, c: Command)
    requires Shape(db) && c.kind.Some?
    ensures forall id :: HasKey(db, id, c.providerId, c.idempotencyKey) ==>
      FindIdentity(db, c) ==
        if db.wagers[id].d.req.payloadHash == PayloadHashOf(c) then Found(db.wagers[id].d)
        else Conflict(IDEMPOTENCY_KEY_REUSED)
    ensures forall id :: HasExternal(db, id, c.providerId, c.externalId) ==>
      (exists other :: HasKey(db, other, c.providerId, c.idempotencyKey)) ||
        FindIdentity(db, c) == Conflict(EXTERNAL_TRANSACTION_ID_REUSED)
    ensures FindIdentity(db, c) == Absent <==>
      forall id :: !HasKey(db, id, c.providerId, c.idempotencyKey) && !HasExternal(db, id, c.providerId, c.externalId)
  {
    hide InboxClosed;
    hide KeyIndex;
    hide ExternalIndex;
    hide HasKey;
    hide HasExternal;
    KeyFinds(db, c.providerId, c.idempotencyKey);
    ExternalFinds(db, c.providerId, c.externalId);
    SameKeyIsKeyed(db, c.providerId, c.externalId, c.idempotencyKey);
  }

  lemma SameKeyIsKeyed(db: Db, provider: string, external: string, key: string)
    ensures forall id :: HasExternal(db, id, provider, external) ==>
      id in db.wagers && (db.wagers[id].d.req.idempotencyKey == key ==> HasKey(db, id, provider, key))
  {
  }

  lemma KeyFinds(db: Db, provider: string, key: string)
    requires KeyIndex(db.wagers, db.byKey)
    ensures forall id :: HasKey(db, id, provider, key) ==>
      (provider, key) in db.byKey && db.byKey[(provider, key)] == id
    ensures (provider, key) in db.byKey ==> HasKey(db, db.byKey[(provider, key)], provider, key)
    ensures forall id :: HasKey(db, id, provider, key) ==> id in db.wagers && db.wagers[id].d.req.idempotencyKey == key
  {
    forall id | HasKey(db, id, provider, key) ensures (provider, key) in db.byKey && db.byKey[(provider, key)] == id {
      assert KeyOf(db.wagers[id].d.req) == (provider, key);
    }
  }

  lemma ExternalFinds(db: Db, provider: string, external: string)
    requires ExternalIndex(db.wagers, db.byExternal)
    ensures forall id :: HasExternal(db, id, provider, external) ==>
      (provider, external) in db.byExternal && db.byExternal[(provider, external)] == id
    ensures (provider, external) in db.byExternal ==>
      HasExternal(db, db.byExternal[(provider, external)], provider, external)
    ensures forall id :: HasExternal(db, id, provider, external) ==> id in db.wagers
  {
    forall id | HasExternal(db, id, provider, external)
      ensures (provider, external) in db.byExternal && db.byExternal[(provider, external)] == id
    {
      assert ExternalOf(db.wagers[id].d.req) == (provider, external);
    }
  }

  /**
   * The reference of a request is the wager of its provider that carries the external id it names, in its own wallet,
   * or in another one if this attempt sees it; it is reversed if a processed REFUND or ROLLBACK points at it.
   */
  lemma ReferenceTable(db: Db, q: Request, seesForeign: bool)
    requires Shape(db)
    ensures q.refExternal == "" ==> ReadReference(db, q, seesForeign) == None
    ensures forall id :: q.refExternal != "" && HasExternal(db, id, q.providerId, q.refExternal) ==>
      ReadReference(db, q, seesForeign) ==
        if db.wagers[id].d.req.walletId == q.walletId || seesForeign then Some(db.wagers[id].d) else None
    ensures (forall id :: !HasExternal(db, id, q.providerId, q.refExternal)) ==>
      ReadReference(db, q, seesForeign) == None
    ensures forall t: WagerData :: ReadReversed(db.wagers, Some(t)) <==>
      exists r :: r in db.wagers && db.wagers[r].d.status == PROCESSED &&
        db.wagers[r].d.req.kind in {REFUND, ROLLBACK} && db.wagers[r].d.referenceId == t.req.id
  {
    hide InboxClosed;
    hide KeyIndex;
    hide ExternalIndex;
    hide HasExternal;
    ExternalFinds(db, q.providerId, q.refExternal);
    forall t: WagerData
      ensures ReadReversed(db.wagers, Some(t)) <==>
        exists r :: r in db.wagers && db.wagers[r].d.status == PROCESSED &&
          db.wagers[r].d.req.kind in {REFUND, ROLLBACK} && db.wagers[r].d.referenceId == t.req.id
    {
      ReversedMeans(db.wagers, t.req.id);
    }
  }

  lemma ReversedMeans(wagers: map<Id, WagerRow>, id: Id)
    ensures Reversed(wagers, id) <==>
      exists r :: r in wagers && wagers[r].d.status == PROCESSED && wagers[r].d.req.kind in {REFUND, ROLLBACK} &&
        wagers[r].d.referenceId == id
  {
    if Reversed(wagers, id) {
      var r :| r in wagers && Reverses(wagers[r].d, id);
      assert wagers[r].d.status == PROCESSED;
    }
    forall r | r in wagers && wagers[r].d.status == PROCESSED && wagers[r].d.req.kind in {REFUND, ROLLBACK} &&
        wagers[r].d.referenceId == id
      ensures Reversed(wagers, id)
    {
      assert Reverses(wagers[r].d, id);
    }
  }

  // ---------- a submission ----------

  /** The answer about a wager: its own result once it is terminal, the present wallet until then. */
  predicate Tells(reply: Reply, d: WagerData, w: WalletData, replay: bool) {
    && reply.transactionId == d.req.id && reply.status == d.status && reply.failureCode == d.failureCode
    && reply.replay == replay
    && (if d.status in {PROCESSED, REJECTED, FAILED} then
          reply.balance == d.resultBalance && reply.walletVersion == d.resultVersion
        else reply.balance == w.balance && reply.walletVersion == w.version)
  }

  /** The message has 32 bytes of hash and names, and none is stored under its names. */
  predicate IsNew(db: Db, m: InboxMessage) {
    m.digest.Some? && m.consumer != "" && m.messageId != "" && (m.consumer, m.messageId) !in db.inbox
  }

  /**
   * A message without names or hash is refused; one that is stored is refused if its hash, or the provider of its
   * wager, differs, and is else answered about that wager, changing nothing.
   */
  lemma MessageTable(db: Db, call: Call, m: InboxMessage)
    requires Shape(db) && NormalizeCommand(call.cmd).Ok? && call.inbox == Some(m)
    ensures m.digest == None || m.consumer == "" || m.messageId == "" ==>
      ProcessWager(db, call) == Fail(INVALID_INPUT)
    ensures var key := (m.consumer, m.messageId);
      m.digest.Some? && m.consumer != "" && m.messageId != "" && key in db.inbox ==>
        var d := db.wagers[db.inbox[key].wagerId.value].d;
        if db.inbox[key].digest != m.digest.value || d.req.providerId != call.cmd.providerId then
          ProcessWager(db, call) == Fail(INBOX_MESSAGE_REUSED)
        else
          && ProcessWager(db, call).Ok? && ProcessWager(db, call).value.0 == db
          && Tells(ProcessWager(db, call).value.1, d, db.wallets[d.req.walletId], true)
  {
    hide ProcessIdentity;
    hide KeyIndex;
    hide ExternalIndex;
    hide ContentError;
  }

  /** Under a new message or none, a command whose key is taken repeats that wager, or misuses the key. */
  lemma KeyTable(db: Db, call: Call, c: Command, id: Id)
    requires Shape(db) && NormalizeCommand(call.cmd) == Ok(c) && (call.inbox.Some? ==> IsNew(db, call.inbox.value))
    requires HasKey(db, id, c.providerId, c.idempotencyKey)
    ensures db.wagers[id].d.req.payloadHash != PayloadHashOf(c) ==>
      ProcessWager(db, call) == Fail(IDEMPOTENCY_KEY_REUSED)
    ensures db.wagers[id].d.req.payloadHash == PayloadHashOf(c) ==>
      && ProcessWager(db, call).Ok?
      && var (db', reply) := ProcessWager(db, call).value;
      Tells(reply, db.wagers[id].d, db.wallets[db.wagers[id].d.req.walletId], true) && Completes(db, db', call, id)
  {
    hide NormalizeCommand;
    hide FindIdentity;
    hide ProcessNew;
    hide HasKey;
    hide HasExternal;
    hide Completes;
    IdentityTable(db, c);
    hide KeyIndex;
    hide ExternalIndex;
    hide InboxClosed;
    NothingIsReserved(db, call);
    KeyedId(db, id, c);
    CompletionCompletes(db, call, id);
  }

  lemma KeyedId(db: Db, id: Id, c: Command)
    requires Placed(db.wagers, db.wallets) && HasKey(db, id, c.providerId, c.idempotencyKey)
    ensures id in db.wagers && db.wagers[id].d.req.id == id
  {
  }

  /** One whose key is free but whose external id is taken is refused. */
  lemma ExternalTable(db: Db, call: Call, c: Command, id: Id)
    requires Shape(db) && NormalizeCommand(call.cmd) == Ok(c) && (call.inbox.Some? ==> IsNew(db, call.inbox.value))
    requires HasExternal(db, id, c.providerId, c.externalId)
    requires forall other :: !HasKey(db, other, c.providerId, c.idempotencyKey)
    ensures ProcessWager(db, call) == Fail(EXTERNAL_TRANSACTION_ID_REUSED)
  {
    hide NormalizeCommand;
    hide FindIdentity;
    hide ProcessNew;
    hide HasKey;
    hide HasExternal;
    IdentityTable(db, c);
    hide KeyIndex;
    hide ExternalIndex;
    hide InboxClosed;
    NothingIsReserved(db, call);
  }

  /** Nothing has changed but the message, if there is one, which is complete on the wager. */
  predicate Completes(db: Db, db': Db, call: Call, id: Id) {
    && db' == db.(inbox := db'.inbox)
    && (call.inbox == None ==> db'.inbox == db.inbox)
    && (call.inbox.Some? && call.inbox.value.digest.Some? ==>
          db'.inbox == db.inbox[(call.inbox.value.consumer, call.inbox.value.messageId) :=
            InboxRow(call.inbox.value.digest.value, Some(id), Some(call.stamps.dbNow))])
  }

  lemma CompletionCompletes(db: Db, call: Call, id: Id)
    ensures Completes(db, CompleteInbox(db, call.inbox, id, call.stamps.dbNow), call, id)
  {
  }

  lemma NothingIsReserved(db: Db, call: Call)
    requires call.inbox.Some? ==> IsNew(db, call.inbox.value)
    ensures ReserveInbox(db, call.inbox) == Reserved
  {
  }

  /**
   * Of a normal command a wager can be built unless it is a BET or LOSS that names a reference, a REFUND or ROLLBACK
   * whose reference is blank, or without identifier or time.
   */
  lemma RequestTable(cmd: Command, c: Command, id: Id, at: Time)
    requires NormalizeCommand(cmd) == Ok(c)
    ensures var r := NewWager(RequestOf(c, id, at)); var kind := c.kind.value;
      if || id == NO_ID || at == NO_TIME || (kind in {BET, LOSS} && c.refExternal != "")
         || (kind in {REFUND, ROLLBACK} && Blank(c.refExternal)) then r == Fail(INVALID_WAGER)
      else r == Ok(WagerData(RequestOf(c, id, at), PENDING, NoCode, NO_MONEY, 0, NO_ID, at, None))
  {
    hide Bytes;
    hide IsSpace;
    TextIsNotBlank(c.providerId);
    TextIsNotBlank(c.externalId);
    TextIsNotBlank(c.idempotencyKey);
    TextIsNotBlank(c.roundId);
    TextIsNotBlank(c.gameId);
  }

  lemma TextIsNotBlank(s: string)
    ensures TextIdentity(s) ==> !Blank(s)
  {
    hide Bytes;
    if TextIdentity(s) {
      assert s[0] in s;
    }
  }

  /** A command that is new, under a new message or none: what it is refused for, in order, before it is judged. */
  lemma NewTable(db: Db, call: Call, c: Command)
    requires Shape(db) && NormalizeCommand(call.cmd) == Ok(c) && (call.inbox.Some? ==> IsNew(db, call.inbox.value))
    requires forall id ::
      !HasKey(db, id, c.providerId, c.idempotencyKey) && !HasExternal(db, id, c.providerId, c.externalId)
    ensures var r := ProcessWager(db, call); var kind := c.kind.value;
      if c.walletId !in db.wallets then r == Fail(NOT_FOUND)
      else if db.wallets[c.walletId].playerId != c.playerId then r == Fail(PLAYER_MISMATCH)
      else if || call.id == NO_ID || call.createdAt == NO_TIME || (kind in {BET, LOSS} && c.refExternal != "")
              || (kind in {REFUND, ROLLBACK} && Blank(c.refExternal)) then r == Fail(INVALID_WAGER)
      else call.id in db.wagers ==> r == Fail(UNAVAILABLE)
  {
    hide NormalizeCommand;
    hide FindIdentity;
    hide Finish;
    hide HasKey;
    hide HasExternal;
    hide NewWager;
    hide Blank;
    IdentityTable(db, c);
    hide KeyIndex;
    hide ExternalIndex;
    hide InboxClosed;
    RequestTable(call.cmd, c, call.id, call.createdAt);
    NothingIsReserved(db, call);
  }

  // ---------- a first answer ----------

  /** The wager of a new command, as it is first built. */
  function WagerOf(call: Call, c: Command): WagerData
    requires c.kind.Some?
  {
    WagerData(
      Request(call.id, c.walletId, c.playerId, c.providerId, c.externalId, c.idempotencyKey, PayloadHashOf(c),
              c.roundId, c.gameId, c.kind.value, c.money, c.refExternal, call.createdAt),
      PENDING, NoCode, NO_MONEY, 0, NO_ID, call.createdAt, None)
  }

  /** Nothing stands against the command but what its wallet and its reference say. */
  ghost predicate Admitted(db: Db, call: Call, c: Command) {
    && NormalizeCommand(call.cmd) == Ok(c) && (call.inbox.Some? ==> IsNew(db, call.inbox.value))
    && (forall id ::
          !HasKey(db, id, c.providerId, c.idempotencyKey) && !HasExternal(db, id, c.providerId, c.externalId))
    && c.walletId in db.wallets && db.wallets[c.walletId].playerId == c.playerId
    && call.id != NO_ID && call.createdAt != NO_TIME && call.id !in db.wagers
    && (c.kind.value in {BET, LOSS} ==> c.refExternal == "")
    && (c.kind.value in {REFUND, ROLLBACK} ==> !Blank(c.refExternal))
  }

  /** What a new wager reads of its reference: itself, if it names itself, else what the tables hold. */
  function FirstReference(db: Db, d: WagerData, seesForeign: bool): Option<WagerData>
    requires Shape(db)
  {
    if d.req.refExternal != "" && d.req.refExternal == d.req.externalId then Some(d)
    else ReadReference(db, d.req, seesForeign)
  }

  lemma FirstReads(db: Db, row: WagerRow, seesForeign: bool)
    requires Shape(db) && Insertable(db, row)
    requires Shape(Insert(db, row))
    ensures var inserted := Insert(db, row); var reference := FirstReference(db, row.d, seesForeign);
      && ReadReference(inserted, row.d.req, seesForeign) == reference
      && ReadReversed(inserted.wagers, reference) == ReadReversed(db.wagers, reference)
  {
    hide KeyIndex;
    hide InboxClosed;
    hide Placed;
    hide Reversed;
    SameReversed(db, row);
    var external := (row.d.req.providerId, row.d.req.refExternal);
    assert external == ExternalOf(row.d.req) <==> row.d.req.refExternal == row.d.req.externalId;
  }

  lemma SameReversed(db: Db, row: WagerRow)
    requires row.d.req.id !in db.wagers && row.d.status == PENDING
    ensures forall id :: Reversed(Insert(db, row).wagers, id) == Reversed(db.wagers, id)
  {
    var wagers := Insert(db, row).wagers;
    forall id ensures Reversed(wagers, id) == Reversed(db.wagers, id) {
      if Reversed(db.wagers, id) {
        var r :| r in db.wagers && Reverses(db.wagers[r].d, id);
        assert Reverses(wagers[r].d, id);
      }
    }
  }

  lemma AdmittedIsPrepared(db: Db, call: Call, c: Command)
    requires Shape(db) && Admitted(db, call, c)
    ensures c.kind.Some? && FindIdentity(db, c) == Absent && ProcessWager(db, call) == ProcessNew(db, call, c)
    ensures Store.Prepared(db, call, c) == Ok((db.wallets[c.walletId], NewRow(WagerOf(call, c), c.trace)))
    ensures Insertable(db, NewRow(WagerOf(call, c), c.trace)) && Shape(Insert(db, NewRow(WagerOf(call, c), c.trace)))
  {
    hide NormalizeCommand;
    hide FindIdentity;
    hide ProcessNew;
    hide HasKey;
    hide HasExternal;
    hide NewWager;
    hide Blank;
    hide IsNew;
    IdentityTable(db, c);
    AbsentIsFree(db, c);
    hide KeyIndex;
    hide ExternalIndex;
    hide InboxClosed;
    hide Placed;
    RequestTable(call.cmd, c, call.id, call.createdAt);
    NothingIsReserved(db, call);
    KindsAreExternal(call.cmd, c);
    InsertShape(db, NewRow(WagerOf(call, c), c.trace));
  }

  lemma KindsAreExternal(cmd: Command, c: Command)
    requires NormalizeCommand(cmd) == Ok(c)
    ensures c.kind.Some? && c.kind.value != OPENING
  {
    hide TextIdentity;
  }

  lemma AbsentIsFree(db: Db, c: Command)
    requires Shape(db) && c.kind.Some? && FindIdentity(db, c) == Absent
    ensures (c.providerId, c.idempotencyKey) !in db.byKey && (c.providerId, c.externalId) !in db.byExternal
  {
  }

  /**
   * An admitted command answers and leaves what its settlement says, and nothing else: the wager under its identities,
   * waiting for a second if it waits at all, the wallet, the entry, the events, and its message complete. A first
   * answer is never marked as a replay. A settlement that fails is the answer.
   */
  lemma FirstAnswer(db: Db, call: Call, c: Command)
    requires Shape(db) && Admitted(db, call, c)
    ensures var d := WagerOf(call, c); var w := db.wallets[c.walletId];
      var reference := FirstReference(db, d, call.seesForeign);
      match Settle(w, d, c.trace, reference, ReadReversed(db.wagers, reference), false, call.stamps)
      case Fail(code) => ProcessWager(db, call) == Fail(code)
      case Ok(out) =>
        && ProcessWager(db, call).Ok?
        && Tells(ProcessWager(db, call).value.1, out.wager, out.wallet, false)
        && Wrote(db, ProcessWager(db, call).value.0, call, c, out)
  {
    hide Settle;
    hide Admitted;
    hide Placed;
    hide KeyIndex;
    hide ExternalIndex;
    hide InboxClosed;
    hide ProcessWager;
    hide ProcessNew;
    hide Store.Prepared;
    hide Insert;
    hide Finish;
    hide FirstReference;
    hide Wrote;
    hide Insertable;
    AdmittedIsPrepared(db, call, c);
    Store.NewOpens(db, call, c);
    var d, w := WagerOf(call, c), db.wallets[c.walletId];
    var row := NewRow(d, c.trace);
    FirstReads(db, row, call.seesForeign);
    var reference := FirstReference(db, d, call.seesForeign);
    var reversed := ReadReversed(db.wagers, reference);
    Store.FinishUnfolds(db, call, w, row, reference, reversed);
    if Settle(w, d, c.trace, reference, reversed, false, call.stamps).Ok? {
      var out := Settle(w, d, c.trace, reference, reversed, false, call.stamps).value;
      FinishWrites(db, call, c, out);
    }
  }

  /** The tables after the first answer to a command. */
  ghost predicate Wrote(db: Db, db': Db, call: Call, c: Command, out: Outcome) {
    var wid := out.wallet.id;
    && wid in db.ledger && wid in db.outbox
    && db'.wallets == db.wallets[wid := out.wallet]
    && db'.ledger == (if out.entry.Some? then db.ledger[wid := db.ledger[wid] + [out.entry.value]] else db.ledger)
    && db'.outbox == db.outbox[wid := db.outbox[wid] + out.events]
    && db'.wagers == db.wagers[call.id := WagerRow(out.wager, c.trace, 0,
      if out.wager.status == PENDING_REFERENCE then Some(call.stamps.dbNow + 1_000_000_000) else None, None)]
    && db'.byKey == db.byKey[(c.providerId, c.idempotencyKey) := call.id]
    && db'.byExternal == db.byExternal[(c.providerId, c.externalId) := call.id]
    && (call.inbox == None ==> db'.inbox == db.inbox)
    && (call.inbox.Some? && call.inbox.value.digest.Some? ==>
          db'.inbox == db.inbox[(call.inbox.value.consumer, call.inbox.value.messageId) :=
            InboxRow(call.inbox.value.digest.value, Some(call.id), Some(call.stamps.dbNow))])
  }

  lemma FinishWrites(db: Db, call: Call, c: Command, out: Outcome)
    requires c.kind.Some? && out.wallet.id in db.ledger && out.wallet.id in db.outbox &&
      out.wager.req == WagerOf(call, c).req
    ensures var row := NewRow(WagerOf(call, c), c.trace);
      var posted := Post(Insert(db, row), Persist(row, out.wager, call.stamps.dbNow), out);
      Wrote(db, CompleteInbox(posted, call.inbox, call.id, call.stamps.dbNow), call, c, out)
  {
  }

  // ---------- a wallet ----------

  /** The player has a wallet in this currency. */
  ghost predicate Owns(db: Db, playerId: Id, currency: Currency) {
    exists id :: id in db.wallets && db.wallets[id].playerId == playerId && db.wallets[id].balance.currency == currency
  }

  /** A wallet can be opened with this much, by this clock. */
  predicate CanOpen(o: Opening) {
    && o.playerId != NO_ID && o.initial.currency in {BRL, USD, EUR} && o.initial.minor >= 0
    && o.walletId != NO_ID && o.now != NO_TIME
  }

  /** What a positive opening needs besides: identifiers, a server clock, and no correlation or a text. */
  predicate CanRecord(o: Opening) {
    && o.wagerId != NO_ID && o.stamps.entryId != NO_ID && o.stamps.wagerEventId != NO_ID
    && o.stamps.balanceEventId != NO_ID && o.stamps.dbNow != NO_TIME
    && (o.correlation == "" || !Blank(o.correlation))
  }

  /**
   * A wallet is refused for its player, its currency, and its amount; then exactly if the player has one in the same
   * currency; otherwise it is created, from fresh identifiers.
   */
  lemma CreateTable(db: Db, o: Opening)
    ensures var r := CreateWallet(db, o);
      var free := o.walletId !in db.wallets && (o.initial.minor > 0 ==> o.wagerId !in db.wagers);
      && (r == Fail(INVALID_ID) <==> o.playerId == NO_ID)
      && (r == Fail(INVALID_CURRENCY) <==> o.playerId != NO_ID && o.initial.currency !in {BRL, USD, EUR})
      && (r == Fail(INVALID_WALLET) <==>
            o.playerId != NO_ID && o.initial.currency in {BRL, USD, EUR} && !CanOpen(o))
      && (r == Fail(WALLET_ALREADY_EXISTS) <==> CanOpen(o) && Owns(db, o.playerId, o.initial.currency))
      && (r == Fail(UNAVAILABLE) <==> CanOpen(o) && !Owns(db, o.playerId, o.initial.currency) && !free)
      && (r.Ok? <==>
            && CanOpen(o) && !Owns(db, o.playerId, o.initial.currency) && free
            && (o.initial.minor > 0 ==> CanRecord(o)))
  {
    hide OpeningRows;
    hide CanRecord;
    hide Blank;
    if CanOpen(o) && o.initial.minor > 0 {
      OpeningTable(o);
    }
  }

  /** The OPENING of a positive amount: processed at once, with its entry and its two events. */
  lemma OpeningTable(o: Opening)
    requires CanOpen(o) && o.initial.minor > 0
    ensures OpeningRows(o).Ok? <==> CanRecord(o)
    ensures OpeningRows(o).Fail? ==> OpeningRows(o).code in {INVALID_WAGER, INVALID_LEDGER, INVALID_EVENT}
    ensures OpeningRows(o).Ok? ==>
      var (row, entry, events) := OpeningRows(o).value; var zero := Money(0, o.initial.currency);
      && row.d.req ==
        Request(o.wagerId, o.walletId, o.playerId, "", "", "", NoHash, "", "", OPENING, o.initial, "", o.now)
      && row.d == WagerData(row.d.req, PROCESSED, NoCode, o.initial, 1, NO_ID, o.now, Some(o.now))
      && row.attempts == 0 && row.nextAttemptAt == None && row.claim == None
      && (o.correlation != "" ==> row.trace.correlation == o.correlation) && row.trace.causation == ""
      && entry ==
        LedgerData(o.stamps.entryId, o.walletId, o.wagerId, CREDIT, o.initial, zero, o.initial, o.stamps.dbNow)
      && events == [
           WagerEvent(EventMeta(o.stamps.wagerEventId, row.trace.correlation, "", o.now), row.d),
           BalanceChanged(EventMeta(o.stamps.balanceEventId, row.trace.correlation, "", o.now), entry, 1)]
  {
    DecimalIsNotBlank(o.walletId);
    hide MoneyText.Decimal;
    hide Blank;
  }

  lemma DecimalIsNotBlank(n: nat)
    ensures !Blank(MoneyText.Decimal(n))
  {
    assert MoneyText.Decimal(n)[0] in MoneyText.Decimal(n);
  }

  /** What a creation leaves: the wallet at version one, its ledger and events, the OPENING, and all else as it was. */
  lemma CreationWrites(db: Db, o: Opening)
    requires CreateWallet(db, o).Ok?
    ensures var db' := CreateWallet(db, o).value;
      && db' == db.(wallets := db'.wallets, wagers := db'.wagers, ledger := db'.ledger, outbox := db'.outbox)
      && db'.wallets == db.wallets[o.walletId := WalletData(o.walletId, o.playerId, o.initial, 1, o.now, o.now)]
      && (o.initial.minor == 0 ==>
            db'.wagers == db.wagers && db'.ledger == db.ledger[o.walletId := []] &&
              db'.outbox == db.outbox[o.walletId := []])
      && (o.initial.minor > 0 ==>
            && OpeningRows(o).Ok?
            && var (row, entry, events) := OpeningRows(o).value;
            && db'.wagers == db.wagers[o.wagerId := row] && db'.ledger == db.ledger[o.walletId := [entry]]
            && db'.outbox == db.outbox[o.walletId := events])
  {
    hide OpeningRows;
  }
}
