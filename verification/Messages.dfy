/**
 * Queue messages and the wagers they are completed on: a message that carries the hash of its own command is only ever
 * completed on the wager of that command (internal/application/contracts.go, internal/adapters/postgres/process.go).
 */
module Messages {
  import opened Prelude
  import opened Wallet
  import opened Wager
  import opened Tables
  import opened Settlement
  import opened Reachable
  import opened Runs
  import opened Growth
  import opened Frozen

  /** The message carries the hash of this command, as the queue's decoder makes it; a command over HTTP has none. */
  predicate Sealed(c: Command, inbox: Option<InboxMessage>) {
    inbox.Some? ==>
      && inbox.value.digest.Some? && inbox.value.digest.value.MessageHash?
      && inbox.value.digest.value.content == c.(trace := NO_TRACE)
  }

  predicate SealedOp(op: Op) {
    op.OpProcess? ==> Sealed(op.call.cmd, op.call.inbox)
  }

  ghost predicate AllSealed(ops: seq<Op>) {
    forall i :: 0 <= i < |ops| ==> SealedOp(ops[i])
  }

  /** The request is that of the hashed command. */
  predicate Covers(digest: Digest, q: Request) {
    && digest.MessageHash? && digest.content.kind.Some? && q.kind != OPENING
    && q == RequestOf(digest.content, q.id, q.createdAt)
  }

  /** A complete message is on the wager of the command that its hash covers. */
  predicate Delivers(wagers: map<Id, WagerRow>, row: InboxRow) {
    row.wagerId.Some? && row.wagerId.value in wagers && Covers(row.digest, wagers[row.wagerId.value].d.req)
  }

  ghost predicate AllDelivered(db: Db) {
    forall k :: k in db.inbox ==> Delivers(db.wagers, db.inbox[k])
  }

  // ---------- one command ----------

  /** What a completion adds is delivered; the rest of the inbox stays. */
  lemma CompletionDelivers(db: Db, c: Command, inbox: Option<InboxMessage>, id: Id, at: Time)
    requires AllDelivered(db) && Sealed(c, inbox) && c.kind.Some? && id in db.wagers
    requires var q := db.wagers[id].d.req; q.kind != OPENING && q == RequestOf(c, q.id, q.createdAt)
    ensures AllDelivered(CompleteInbox(db, inbox, id, at))
  {
  }

  lemma FoundRepeats(db: Db, c: Command)
    requires Shape(db) && c.kind.Some? && FindIdentity(db, c).Found?
    ensures Repeats(c, FindIdentity(db, c).d) && FindIdentity(db, c).d.req.kind != OPENING
  {
    hide PayloadHashOf;
    hide InboxClosed;
  }

  lemma FoundDelivers(db: Db, c: Command, inbox: Option<InboxMessage>, at: Time)
    requires Shape(db) && AllDelivered(db) && Sealed(c, inbox) && c.kind.Some? && FindIdentity(db, c).Found?
    requires Hashed(FindIdentity(db, c).d.req)
    ensures AllDelivered(CompleteInbox(db, inbox, FindIdentity(db, c).d.req.id, at))
  {
    hide FindIdentity;
    hide Placed;
    hide InboxClosed;
    hide Sealed;
    hide Hashed;
    hide Repeats;
    hide CompleteInbox;
    hide AllDelivered;
    var d := FindIdentity(db, c).d;
    FoundIsStored(db, c);
    FoundRepeats(db, c);
    RepeatHasContent(c, d);
    CompletionDelivers(db, c, inbox, d.req.id, at);
  }

  /** The inbox and every earlier request stay when a row is inserted and written back. */
  lemma PostedDelivers(db: Db, row: WagerRow, row': WagerRow, out: Outcome)
    requires AllDelivered(db) && row.d.req.id !in db.wagers && row'.d.req == row.d.req
    requires out.wallet.id in db.ledger && out.wallet.id in db.outbox
    ensures var db' := Post(Insert(db, row), row', out);
      AllDelivered(db') && row.d.req.id in db'.wagers && db'.wagers[row.d.req.id] == row'
  {
  }

  lemma FinishDelivers(db: Db, call: Call, c: Command, w: WalletData, row: WagerRow, reference: Option<WagerData>,
          reversed: bool)
    requires w.id in db.ledger && w.id in db.outbox && Finish(db, call, w, row, reference, reversed).Ok?
    requires AllDelivered(db) && Sealed(c, call.inbox) && c.kind.Some? && row.d.req.id !in db.wagers
    requires row.d.req.kind != OPENING && row.d.req == RequestOf(c, row.d.req.id, row.d.req.createdAt)
    ensures AllDelivered(Finish(db, call, w, row, reference, reversed).value.0)
  {
    hide Finish;
    hide Post;
    hide Persist;
    hide Sealed;
    hide CompleteInbox;
    hide AllDelivered;
    var row', out := FinishIs(db, call, w, row, reference, reversed);
    PostedDelivers(db, row, row', out);
    CompletionDelivers(Post(Insert(db, row), row', out), c, call.inbox, row.d.req.id, call.stamps.dbNow);
  }

  lemma NewDelivers(db: Db, call: Call, c: Command)
    requires Shape(db) && AllDelivered(db) && Sealed(c, call.inbox)
    requires c.kind.Some? && FindIdentity(db, c) == Absent && ProcessNew(db, call, c).Ok?
    ensures AllDelivered(ProcessNew(db, call, c).value.0)
  {
    hide Finish;
    hide FindIdentity;
    hide Sealed;
    hide AllDelivered;
    hide Placed;
    hide KeyIndex;
    hide InboxClosed;
    var row := RowOf(call, c);
    NewIsInsertable(db, call, c);
    InsertShape(db, row);
    NewIsFinished(db, call, c);
    var inserted := Insert(db, row);
    var reference := ReadReference(inserted, row.d.req, call.seesForeign);
    FinishDelivers(db, call, c, db.wallets[c.walletId], row, reference, ReadReversed(inserted.wagers, reference));
  }

  lemma SealedAsNormal(raw: Command, c: Command, inbox: Option<InboxMessage>)
    requires NormalizeCommand(raw) == Ok(c) && Sealed(raw, inbox)
    ensures Sealed(c, inbox)
  {
  }

  lemma ProcessDelivers(db: Db, call: Call)
    requires Shape(db) && AllDelivered(db) && Sealed(call.cmd, call.inbox) && ProcessWager(db, call).Ok?
    requires forall id :: id in db.wagers ==> Hashed(db.wagers[id].d.req)
    ensures AllDelivered(ProcessWager(db, call).value.0)
  {
    hide FindIdentity;
    hide ProcessNew;
    hide CompleteInbox;
    hide AllDelivered;
    hide Sealed;
    hide Hashed;
    hide ResultOf;
    var c := NormalizeCommand(call.cmd).value;
    SealedAsNormal(call.cmd, c, call.inbox);
    if ReserveInbox(db, call.inbox) == Reserved {
      match FindIdentity(db, c)
      case Found(d) =>
        FoundIsStored(db, c);
        FoundDelivers(db, c, call.inbox, call.stamps.dbNow);
      case Absent => NewDelivers(db, call, c);
    }
  }

  // ---------- every run ----------

  /** A transaction that leaves the inbox alone keeps its rows delivered. */
  lemma OthersDeliver(db: Db, db': Db)
    requires AllDelivered(db) && Grows(db, db') && db'.inbox == db.inbox
    ensures AllDelivered(db')
  {
    forall k | k in db'.inbox ensures Delivers(db'.wagers, db'.inbox[k]) {
      var id := db.inbox[k].wagerId.value;
      assert Delivers(db.wagers, db.inbox[k]) && RowGrows(db.wagers[id], db'.wagers[id]);
    }
  }

  lemma SameInbox(db: Db, op: Op)
    requires Shape(db) && !op.OpProcess?
    ensures Step(db, op).inbox == db.inbox
  {
    hide RetryOutcome;
    hide CreateWallet;
    hide Claimable;
    hide Placed;
    hide KeyIndex;
    hide InboxClosed;
    if op.OpCreate? && CreateWallet(db, op.o).Ok? { var row, entries, events := CreateIs(db, op.o); }
  }

  lemma StepDelivers(db: Db, op: Op)
    requires Shape(db) && AllDelivered(db) && SealedOp(op)
    requires forall id :: id in db.wagers ==> Hashed(db.wagers[id].d.req)
    ensures AllDelivered(Step(db, op))
  {
    hide ProcessWager;
    hide AllDelivered;
    hide Sealed;
    hide Hashed;
    hide Grows;
    hide Shape;
    if op.OpProcess? {
      if ProcessWager(db, op.call).Ok? { ProcessDelivers(db, op.call); }
    } else {
      StepGrows(db, op);
      SameInbox(db, op);
      OthersDeliver(db, Step(db, op));
    }
  }

  lemma {:induction false} RunDelivers(ops: seq<Op>)
    requires AllSealed(ops)
    ensures AllDelivered(Run(ops))
    decreases |ops|
  {
    if ops != [] {
      var front, op := ops[..|ops| - 1], ops[|ops| - 1];
      RunUnfolds(ops);
      hide Run;
      hide Inv;
      hide Step;
      hide Hashed;
      hide SealedOp;
      hide AllDelivered;
      RunDelivers(front);
      forall id | id in Run(front).wagers ensures Hashed(Run(front).wagers[id].d.req) {
        RunIsHashed(front, id);
      }
      RunIsShaped(front);
      StepDelivers(Run(front), op);
    }
  }

  lemma RunIsShaped(ops: seq<Op>)
    ensures Shape(Run(ops))
  {
    hide Run;
    hide AllGood;
    hide Placed;
    hide KeyIndex;
    hide ExternalIndex;
    hide InboxClosed;
  }

  // ---------- what a message that comes back finds ----------

  /** A message that its table row completes is answered about the wager of its own command. */
  lemma MessageFindsOwn(db: Db, c: Command, inbox: Option<InboxMessage>, id: Id)
    requires AllDelivered(db) && Sealed(c, inbox) && ReserveInbox(db, inbox) == Completed(id)
    ensures id in db.wagers && Repeats(c, db.wagers[id].d) && db.wagers[id].d.req.kind != OPENING
  {
    var m := inbox.value;
    assert Delivers(db.wagers, db.inbox[(m.consumer, m.messageId)]);
  }

  lemma RepeatsOnce(db: Db, c: Command, x: Id, y: Id)
    requires Shape(db) && x in db.wagers && y in db.wagers
    requires Repeats(c, db.wagers[x].d) && db.wagers[x].d.req.kind != OPENING
    requires Repeats(c, db.wagers[y].d) && db.wagers[y].d.req.kind != OPENING
    ensures x == y
  {
    hide PayloadHashOf;
    hide Placed;
    hide ExternalIndex;
    hide InboxClosed;
    assert KeyOf(db.wagers[x].d.req) == KeyOf(db.wagers[y].d.req);
  }

  /**
   * When every message carries the hash of its command, a repetition of a terminal wager's command is answered with the
   * frozen result whatever message it carries, unless that message itself is refused.
   */
  lemma SealedReplay(ops: seq<Op>, more: seq<Op>, call: Call, c: Command, id: Id)
    requires AllSealed(ops + more) && Sealed(call.cmd, call.inbox)
    requires id in Run(ops).wagers && Run(ops).wagers[id].d.status.Terminal()
    requires Run(ops).wagers[id].d.req.kind != OPENING
    requires NormalizeCommand(call.cmd) == Ok(c) && Repeats(c, Run(ops).wagers[id].d)
    requires !ReserveInbox(Run(ops + more), call.inbox).Refused?
    ensures AnswersFrozen(Run(ops + more), call, Run(ops).wagers[id].d)
  {
    hide Run;
    hide Inv;
    hide Repeats;
    hide Sealed;
    hide AllSealed;
    hide AllDelivered;
    hide NormalizeCommand;
    hide ReserveInbox;
    hide AnswersFrozen;
    TerminalStays(ops, more, id);
    var db := Run(ops + more);
    if ReserveInbox(db, call.inbox).Completed? {
      var x := ReserveInbox(db, call.inbox).wagerId;
      RunDelivers(ops + more);
      RunIsShaped(ops + more);
      SealedAsNormal(call.cmd, c, call.inbox);
      MessageFindsOwn(db, c, call.inbox, x);
      RepeatsOnce(db, c, x, id);
    }
    FrozenReplay(ops, more, call, c, id);
  }
}
