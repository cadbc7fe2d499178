/** The queue consumer: a message is deleted only after its command is committed (internal/workers/engine.go). */
module Consumer {
  import opened Prelude
  import opened Settlement
  import opened Wallet
  import opened Wager
  import opened Tables
  import opened Reachable
  import opened Runs
  import opened Growth
  import Outbox
  import Store

  class Queue {
    /** Messages that were acknowledged, and the invisibility asked for those given back. */
    var deleted: set<(string, string)>
    var hidden: map<(string, string), Time>

    constructor ()
      ensures deleted == {} && hidden == map[]
    {
      deleted, hidden := {}, map[];
    }
  }

  /** A committed command has completed its message, on a stored wager. */
  lemma CommitCompletes(db: Db, call: Call)
    requires Inv(db) && call.inbox.Some? && ProcessWager(db, call).Ok?
    ensures var db' := ProcessWager(db, call).value.0;
      var key := (call.inbox.value.consumer, call.inbox.value.messageId);
      Inv(db') && key in db'.inbox && db'.inbox[key].completedAt.Some? && db'.inbox[key].wagerId.Some? &&
        db'.inbox[key].wagerId.value in db'.wagers
  {
    hide Good;
    hide Placed;
    hide KeyIndex;
    hide ExternalIndex;
    hide NormalizeCommand;
    hide FindIdentity;
    hide Broken;
    ProcessKeeps(db, call);
    MessageIsStored(db, call);
  }

  lemma MessageIsStored(db: Db, call: Call)
    requires Shape(db) && call.inbox.Some? && ProcessWager(db, call).Ok?
    ensures (call.inbox.value.consumer, call.inbox.value.messageId) in ProcessWager(db, call).value.0.inbox
  {
    hide Placed;
    hide NormalizeCommand;
    hide Settle;
    hide ValidWager;
    hide Insert;
    hide Post;
    hide InboxReplay;
  }

  /** The message is complete, on a wager of this provider. */
  predicate CompletedOn(db: Db, inbox: Option<InboxMessage>, provider: string, id: Id) {
    && inbox.Some? && ReserveInbox(db, inbox) == Completed(id)
    && id in db.wagers && db.wagers[id].d.req.id == id && db.wagers[id].d.req.providerId == provider
  }

  lemma CompletionNames(db: Db, inbox: Option<InboxMessage>, provider: string, id: Id, at: Time)
    requires inbox.Some? && ReserveInbox(db, inbox) == Reserved
    requires id in db.wagers && db.wagers[id].d.req.id == id && db.wagers[id].d.req.providerId == provider
    ensures CompletedOn(CompleteInbox(db, inbox, id, at), inbox, provider, id)
  {
  }

  lemma CommitNames(db: Db, call: Call)
    requires Shape(db) && call.inbox.Some? && ProcessWager(db, call).Ok?
    ensures var (db', reply) := ProcessWager(db, call).value;
      CompletedOn(db', call.inbox, call.cmd.providerId, reply.transactionId)
  {
    hide FindIdentity;
    hide ProcessNew;
    hide CompleteInbox;
    hide ReserveInbox;
    hide CompletedOn;
    hide ContentError;
    var c := NormalizeCommand(call.cmd).value;
    if ReserveInbox(db, call.inbox).Completed? {
      ReplayNames(db, call);
    } else {
      match FindIdentity(db, c)
      case Found(d) =>
        FoundIsStored(db, c);
        FoundProvider(db, c);
        CompletionNames(db, call.inbox, c.providerId, d.req.id, call.stamps.dbNow);
      case Absent => NewNames(db, call, c);
    }
  }

  lemma ReplayNames(db: Db, call: Call)
    requires Shape(db) && ReserveInbox(db, call.inbox).Completed? && ProcessWager(db, call).Ok?
    ensures var (db', reply) := ProcessWager(db, call).value;
      CompletedOn(db', call.inbox, call.cmd.providerId, reply.transactionId)
  {
    hide ContentError;
    hide ProcessIdentity;
    hide KeyIndex;
    hide ExternalIndex;
    CompletedIsStored(db, call.inbox);
  }

  lemma CompletedIsStored(db: Db, inbox: Option<InboxMessage>)
    requires Shape(db) && ReserveInbox(db, inbox).Completed?
    ensures var id := ReserveInbox(db, inbox).wagerId; id in db.wagers && db.wagers[id].d.req.id == id
  {
  }

  lemma FoundProvider(db: Db, c: Command)
    requires Shape(db) && c.kind.Some? && FindIdentity(db, c).Found?
    ensures FindIdentity(db, c).d.req.providerId == c.providerId
  {
  }

  lemma NewNames(db: Db, call: Call, c: Command)
    requires Shape(db) && c.kind.Some? && FindIdentity(db, c) == Absent && ProcessNew(db, call, c).Ok?
    requires call.inbox.Some? && ReserveInbox(db, call.inbox) == Reserved
    ensures var (db', reply) := ProcessNew(db, call, c).value;
      CompletedOn(db', call.inbox, c.providerId, reply.transactionId)
  {
    hide Finish;
    hide FindIdentity;
    hide ReserveInbox;
    hide CompletedOn;
    hide Placed;
    hide KeyIndex;
    hide InboxClosed;
    var row := RowOf(call, c);
    NewIsInsertable(db, call, c);
    InsertShape(db, row);
    NewIsFinished(db, call, c);
    var inserted := Insert(db, row);
    var reference := ReadReference(inserted, row.d.req, call.seesForeign);
    FinishNames(db, call, db.wallets[c.walletId], row, reference, ReadReversed(inserted.wagers, reference));
  }

  lemma FinishNames(db: Db, call: Call, w: WalletData, row: WagerRow, reference: Option<WagerData>, reversed: bool)
    requires w.id in db.ledger && w.id in db.outbox && Finish(db, call, w, row, reference, reversed).Ok?
    requires call.inbox.Some? && ReserveInbox(db, call.inbox) == Reserved
    ensures var (db', reply) := Finish(db, call, w, row, reference, reversed).value;
      CompletedOn(db', call.inbox, row.d.req.providerId, reply.transactionId)
  {
    hide Finish;
    hide Post;
    hide Persist;
    hide ReserveInbox;
    hide CompleteInbox;
    hide CompletedOn;
    var row', out := FinishIs(db, call, w, row, reference, reversed);
    var posted := Post(Insert(db, row), row', out);
    PostedHolds(Insert(db, row), row', out);
    SameMessages(db, posted, call.inbox);
    CompletionNames(posted, call.inbox, row.d.req.providerId, row.d.req.id, call.stamps.dbNow);
  }

  lemma PostedHolds(db: Db, row: WagerRow, out: Outcome)
    requires out.wallet.id in db.ledger && out.wallet.id in db.outbox
    ensures var db' := Post(db, row, out); row.d.req.id in db'.wagers && db'.wagers[row.d.req.id] == row
    ensures Post(db, row, out).inbox == db.inbox
  {
  }

  lemma SameMessages(db: Db, db': Db, inbox: Option<InboxMessage>)
    requires db'.inbox == db.inbox
    ensures ReserveInbox(db', inbox) == ReserveInbox(db, inbox)
  {
  }

  lemma StaysCompleted(db: Db, later: Db, inbox: Option<InboxMessage>, provider: string, id: Id)
    requires Grows(db, later) && CompletedOn(db, inbox, provider, id)
    ensures CompletedOn(later, inbox, provider, id)
  {
    assert RowGrows(db.wagers[id], later.wagers[id]);
  }

  /** A message that is delivered again, however much later, changes nothing and is answered about the same wager. */
  lemma Redelivered(db: Db, call: Call, later: Db, again: Call)
    requires Shape(db) && call.inbox.Some? && ProcessWager(db, call).Ok?
    requires Shape(later) && Grows(ProcessWager(db, call).value.0, later)
    requires again.cmd == call.cmd && again.inbox == call.inbox
    ensures ProcessWager(later, again).Ok? && ProcessWager(later, again).value.0 == later
    ensures var reply := ProcessWager(later, again).value.1;
      reply.replay && reply.transactionId == ProcessWager(db, call).value.1.transactionId
  {
    var id := ProcessWager(db, call).value.1.transactionId;
    CommitNames(db, call);
    StaysCompleted(ProcessWager(db, call).value.0, later, call.inbox, call.cmd.providerId, id);
    MustNormalize(db, call);
    hide Grows;
    hide Shape;
    hide NormalizeCommand;
    CompletedReplays(later, again, id);
  }

  lemma MustNormalize(db: Db, call: Call)
    requires Shape(db) && ProcessWager(db, call).Ok?
    ensures NormalizeCommand(call.cmd).Ok?
  {
  }

  lemma CompletedReplays(db: Db, call: Call, id: Id)
    requires Shape(db) && NormalizeCommand(call.cmd).Ok? && CompletedOn(db, call.inbox, call.cmd.providerId, id)
    ensures ProcessWager(db, call).Ok? && ProcessWager(db, call).value.0 == db
    ensures ProcessWager(db, call).value.1.replay && ProcessWager(db, call).value.1.transactionId == id
  {
    hide ContentError;
    hide ProcessIdentity;
    hide FindIdentity;
    hide ReserveInbox;
    hide KeyIndex;
    hide ExternalIndex;
    hide InboxClosed;
  }

  /**
   * handle: process, and delete the message once that succeeded; otherwise give it back, at once if the engine is
   * stopping, else after half to all of two to the power of its receive count, in seconds, and at most thirty. The
   * message stays in the queue unless the command is committed, the commit is reported and the deletion itself
   * succeeds: a commit whose answer is lost is in the tables, and its message comes back.
   */
  method Handle(db: Store.Database, queue: Queue, call: Call, reported: bool, deletes: bool, stopping: bool,
          receiveCount: int, draw: Time) returns (done: bool)
    requires Inv(db.Contents()) && call.inbox.Some?
    modifies db, queue
    ensures Inv(db.Contents())
    ensures match ProcessWager(old(db.Contents()), call)
      case Ok((db', _)) => db.Contents() == db'
      case Fail(_) => db.Contents() == old(db.Contents())
    ensures var key := (call.inbox.value.consumer, call.inbox.value.messageId);
      && done == (ProcessWager(old(db.Contents()), call).Ok? && reported && deletes)
      && queue.deleted == old(queue.deleted) + (if done then {key} else {})
      && (done ==>
        key in db.inbox && db.inbox[key].completedAt.Some? && db.inbox[key].wagerId.Some? &&
          db.inbox[key].wagerId.value in db.wagers)
      && (if done then queue.hidden == old(queue.hidden)
          else key in queue.hidden && queue.hidden == old(queue.hidden)[key := queue.hidden[key]])
    ensures var key := (call.inbox.value.consumer, call.inbox.value.messageId);
      var times := if receiveCount < 0 then 0 else Min(receiveCount, 20);
      var step := Min(Pow2(times) * SECOND, 30 * SECOND);
      !done ==> if stopping then queue.hidden[key] == 0 else step / 2 <= queue.hidden[key] <= step
  {
    hide ProcessWager;
    hide AllGood;
    hide Placed;
    hide KeyIndex;
    hide ExternalIndex;
    hide InboxClosed;
    var key := (call.inbox.value.consumer, call.inbox.value.messageId);
    ghost var before := db.Contents();
    var r := db.ProcessWager(call);
    if r.Ok? {
      CommitCompletes(before, call);
      if !reported {
        r := Fail(UNAVAILABLE);
      }
    }
    if r.Ok? {
      if deletes {
        queue.deleted := queue.deleted + {key};
        return true;
      }
    }
    var delay := 0;
    if !stopping {
      var half := Outbox.Ceiling(receiveCount, 30 * SECOND) / 2;
      delay := Outbox.Backoff(receiveCount, 30 * SECOND, if draw < 0 then 0 else Min(draw, half));
    }
    queue.hidden := queue.hidden[key := delay];
    return false;
  }
}
