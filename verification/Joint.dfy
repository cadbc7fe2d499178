/**
 * The engine and the relay as one system: what a transaction commits to the outbox is what publishers take from it
 * (internal/adapters/postgres/process.go, events.go, work.go, internal/workers/engine.go).
 */
module Joint {
  import opened Prelude
  import opened Ledger
  import opened Tables
  import opened Emission
  import opened Reachable
  import opened Runs
  import opened Growth
  import opened Guards
  import opened Projection
  import opened EndToEnd
  import Interleaving
  import Concurrency
  import Guarantees
  import Outbox

  // ---------- where a transaction emits ----------

  function EmitsAt(op: Op): Id {
    match op
    case OpCreate(o) => o.walletId
    case OpProcess(call) => call.cmd.walletId
    case OpRetry(r) => r.claim.walletId
    case _ => NO_ID
  }

  ghost predicate EmitsOnlyAt(db: Db, db': Db, wid: Id) {
    forall w :: w in db'.outbox && w != wid ==> w in db.outbox && db'.outbox[w] == db.outbox[w]
  }

  lemma FinishEmitsAt(db: Db, call: Call, w: Wallet.WalletData, row: WagerRow, reference: Option<Wager.WagerData>,
          reversed: bool)
    requires w.id in db.ledger && w.id in db.outbox && Finish(db, call, w, row, reference, reversed).Ok?
    ensures EmitsOnlyAt(db, Finish(db, call, w, row, reference, reversed).value.0, w.id)
  {
    hide Finish;
    var row', out := FinishIs(db, call, w, row, reference, reversed);
  }

  lemma NewEmitsAt(db: Db, call: Call, c: Command)
    requires Shape(db) && c.kind.Some? && FindIdentity(db, c) == Absent && ProcessNew(db, call, c).Ok?
    ensures EmitsOnlyAt(db, ProcessNew(db, call, c).value.0, c.walletId)
  {
    hide Finish;
    hide Placed;
    hide InboxClosed;
    hide FindIdentity;
    hide EmitsOnlyAt;
    var row := RowOf(call, c);
    NewIsInsertable(db, call, c);
    InsertShape(db, row);
    NewIsFinished(db, call, c);
    var inserted := Insert(db, row);
    var reference := ReadReference(inserted, row.d.req, call.seesForeign);
    FinishEmitsAt(db, call, db.wallets[c.walletId], row, reference, ReadReversed(inserted.wagers, reference));
  }

  lemma ProcessEmitsAt(db: Db, call: Call)
    requires Shape(db) && ProcessWager(db, call).Ok?
    ensures EmitsOnlyAt(db, ProcessWager(db, call).value.0, call.cmd.walletId)
  {
    hide FindIdentity;
    hide ProcessNew;
    hide Placed;
    hide InboxClosed;
    var c := NormalizeCommand(call.cmd).value;
    if ReserveInbox(db, call.inbox) == Reserved && FindIdentity(db, c) == Absent {
      NewEmitsAt(db, call, c);
    }
  }

  lemma StepEmitsAt(db: Db, op: Op)
    requires Shape(db)
    ensures EmitsOnlyAt(db, Step(db, op), EmitsAt(op))
  {
    hide ProcessWager;
    hide RetryOutcome;
    hide CreateWallet;
    hide Claimable;
    hide KeyIndex;
    hide InboxClosed;
    match op
    case OpCreate(o) => if CreateWallet(db, o).Ok? { var row, entries, events := CreateIs(db, o); }
    case OpProcess(call) => if ProcessWager(db, call).Ok? { ProcessEmitsAt(db, call); }
    case _ =>
  }

  // ---------- the joint system ----------

  datatype State = State(engine: Interleaving.Sys, relay: Outbox.Relay)

  datatype Act =
    | Engine(a: Interleaving.Action)
    | Publisher(p: Outbox.Action)
    | Elapse(d: nat)

  /** The events that a transaction added to the outbox of a wallet. */
  function Added(db: Db, db': Db, wid: Id): seq<Event> {
    if wid !in db'.outbox then []
    else if wid in db.outbox && |db.outbox[wid]| <= |db'.outbox[wid]| then db'.outbox[wid][|db.outbox[wid]|..]
    else db'.outbox[wid]
  }

  /** The outbox rows of a commit, inserted one by one. */
  function Arrived(relay: Outbox.Relay, es: seq<Event>): Outbox.Relay {
    if es == [] then relay else Outbox.Next(Arrived(relay, es[..|es| - 1]), Outbox.Arrive(es[|es| - 1]))
  }

  /** The primary key of the outbox: event ids are fresh. */
  predicate NewIds(rows: map<Id, Outbox.Row>, es: seq<Event>) {
    && (forall i :: 0 <= i < |es| ==> es[i].meta.id !in rows)
    && (forall i, j :: 0 <= i < j < |es| ==> es[i].meta.id != es[j].meta.id)
  }

  /**
   * One step of the engine or of a publisher, or time passing for both. A commit that reuses an event id does not
   * happen.
   */
  function Next(s: State, act: Act): State
    requires Interleaving.Safe(s.engine)
  {
    match act
    case Engine(a) =>
      var next := Concurrency.Next(s.engine, a);
      if a.Tick? then s
      else if |next.history| <= |s.engine.history| then s.(engine := next)
      else
        var es := Added(s.engine.db, next.db, EmitsAt(next.history[|next.history| - 1]));
        if NewIds(s.relay.rows, es) then State(next, Arrived(s.relay, es)) else s
    case Publisher(p) => if p.Arrive? || p.Tick? then s else s.(relay := Outbox.Next(s.relay, p))
    case Elapse(d) => State(Concurrency.Next(s.engine, Interleaving.Tick(d)), Outbox.Next(s.relay, Outbox.Tick(d)))
  }

  /** The rows of the relay are exactly the committed events. */
  ghost predicate Tied(db: Db, rows: map<Id, Outbox.Row>) {
    && (forall w, e :: w in db.outbox && e in db.outbox[w] ==> e.meta.id in rows && rows[e.meta.id].event == e)
    && (forall id {:trigger rows[id]} :: id in rows ==>
          rows[id].event.Aggregate() in db.outbox && rows[id].event in db.outbox[rows[id].event.Aggregate()])
  }

  ghost predicate Safe(s: State) {
    && Interleaving.Safe(s.engine) && Outbox.Safe(s.relay)
    && Tied(s.engine.db, s.relay.rows) && s.engine.clock == s.relay.clock
  }

  // ---------- arrivals ----------

  /** An id among the events. */
  ghost predicate IdOf(es: seq<Event>, id: Id) {
    exists i :: 0 <= i < |es| && es[i].meta.id == id
  }

  lemma ArrivesAs(relay: Outbox.Relay, e: Event)
    requires e.meta.id !in relay.rows
    ensures var r := Outbox.Next(relay, Outbox.Arrive(e));
      && r.clock == relay.clock && r.longest == relay.longest && r.log == relay.log
      && e.meta.id in r.rows && r.rows[e.meta.id].event == e && r.rows == relay.rows[e.meta.id := r.rows[e.meta.id]]
  {
  }

  /** The arrivals add exactly the rows of these events. */
  ghost predicate Adds(relay: Outbox.Relay, es: seq<Event>, r: Outbox.Relay) {
    && r.clock == relay.clock && r.longest == relay.longest && r.log == relay.log
    && (forall id :: id in relay.rows ==> id in r.rows && r.rows[id] == relay.rows[id])
    && (forall i :: 0 <= i < |es| ==> es[i].meta.id in r.rows && r.rows[es[i].meta.id].event == es[i])
    && (forall id :: id in r.rows ==> id in relay.rows || IdOf(es, id))
  }

  lemma AddsOne(relay: Outbox.Relay, front: seq<Event>, last: Event, r: Outbox.Relay)
    requires NewIds(relay.rows, front + [last]) && Adds(relay, front, r)
    ensures Adds(relay, front + [last], Outbox.Next(r, Outbox.Arrive(last)))
  {
    hide Outbox.Next;
    var es := front + [last];
    assert es[|front|] == last;
    forall i | 0 <= i < |front| ensures front[i] == es[i] && front[i].meta.id != last.meta.id {}
    assert !IdOf(front, last.meta.id);
    ArrivesAs(r, last);
    forall id | IdOf(front, id) || id == last.meta.id ensures IdOf(es, id) {
      if id != last.meta.id {
        var i :| 0 <= i < |front| && front[i].meta.id == id;
        assert es[i].meta.id == id;
      }
    }
  }

  lemma {:induction false} ArrivedAre(relay: Outbox.Relay, es: seq<Event>)
    requires NewIds(relay.rows, es)
    ensures Adds(relay, es, Arrived(relay, es))
  {
    hide Outbox.Next;
    if es == [] {
    } else {
      hide Adds;
      var front, last := es[..|es| - 1], es[|es| - 1];
      assert es == front + [last];
      ArrivedAre(relay, front);
      AddsOne(relay, front, last, Arrived(relay, front));
    }
  }

  lemma {:induction false} ArrivedSafe(relay: Outbox.Relay, es: seq<Event>)
    requires Outbox.Safe(relay)
    ensures Outbox.Safe(Arrived(relay, es))
  {
    if es != [] {
      ArrivedSafe(relay, es[..|es| - 1]);
      Outbox.StepSafe(Arrived(relay, es[..|es| - 1]), Outbox.Arrive(es[|es| - 1]));
    }
  }

  /** A commit and its arrivals keep rows and committed events the same. */
  lemma CommitTied(db: Db, db': Db, wid: Id, relay: Outbox.Relay)
    requires Tied(db, relay.rows) && Appends(db, db') && EmitsOnlyAt(db, db', wid) &&
      NewIds(relay.rows, Added(db, db', wid))
    requires wid in db'.outbox ==> forall i :: 0 <= i < |db'.outbox[wid]| ==> db'.outbox[wid][i].Aggregate() == wid
    ensures Tied(db', Arrived(relay, Added(db, db', wid)).rows)
  {
    var es := Added(db, db', wid);
    var rows := Arrived(relay, es).rows;
    ArrivedAre(relay, es);
    forall w, e | w in db'.outbox && e in db'.outbox[w] ensures e.meta.id in rows && rows[e.meta.id].event == e {
      if w == wid && !(w in db.outbox && e in db.outbox[w]) {
        AddedHolds(db, db', wid, e);
      }
    }
    forall id | id in rows
      ensures rows[id].event.Aggregate() in db'.outbox && rows[id].event in db'.outbox[rows[id].event.Aggregate()]
    {
      if id in relay.rows {
        StaysIn(db, db', relay.rows[id].event);
      } else {
        assert IdOf(es, id);
        var i :| 0 <= i < |es| && es[i].meta.id == id;
        AddedIsIn(db, db', wid, i);
      }
    }
  }

  lemma AddedHolds(db: Db, db': Db, wid: Id, e: Event)
    requires wid in db'.outbox && e in db'.outbox[wid] &&
      (wid in db.outbox ==> e !in db.outbox[wid] && db.outbox[wid] <= db'.outbox[wid])
    ensures exists i :: 0 <= i < |Added(db, db', wid)| && Added(db, db', wid)[i] == e
  {
    var k :| 0 <= k < |db'.outbox[wid]| && db'.outbox[wid][k] == e;
    if wid in db.outbox {
      forall j | 0 <= j < |db.outbox[wid]|
        ensures db'.outbox[wid][j] != e
      {
        assert db.outbox[wid][j] in db.outbox[wid];
      }
      assert Added(db, db', wid)[k - |db.outbox[wid]|] == e;
    } else {
      assert Added(db, db', wid)[k] == e;
    }
  }

  lemma AddedIsIn(db: Db, db': Db, wid: Id, i: nat)
    requires i < |Added(db, db', wid)|
    ensures wid in db'.outbox && Added(db, db', wid)[i] in db'.outbox[wid]
  {
  }

  lemma StaysIn(db: Db, db': Db, e: Event)
    requires Appends(db, db') && e.Aggregate() in db.outbox && e in db.outbox[e.Aggregate()]
    ensures e.Aggregate() in db'.outbox && e in db'.outbox[e.Aggregate()]
  {
    var w := e.Aggregate();
    var k :| 0 <= k < |db.outbox[w]| && db.outbox[w][k] == e;
    assert db'.outbox[w][k] == e;
  }

  // ---------- every joint run ----------

  lemma EngineSafe(s: State, a: Interleaving.Action)
    requires Safe(s)
    ensures Safe(Next(s, Engine(a)))
  {
    hide Interleaving.Safe;
    hide Outbox.Safe;
    hide Tied;
    hide Step;
    hide Concurrency.Next;
    hide NewIds;
    var next := Concurrency.Next(s.engine, a);
    Concurrency.NextKeeps(s.engine, a);
    EngineFacts(s.engine, a);
    if !a.Tick? && |next.history| > |s.engine.history| {
      var op := next.history[|next.history| - 1];
      var wid := EmitsAt(op);
      if NewIds(s.relay.rows, Added(s.engine.db, next.db, wid)) {
        ArrivedSafe(s.relay, Added(s.engine.db, next.db, wid));
        ArrivedAre(s.relay, Added(s.engine.db, next.db, wid));
        CommitTied(s.engine.db, next.db, wid, s.relay);
      }
    }
  }

  /** What a step of the engine does to the outbox and the clock. */
  lemma EngineFacts(s: Interleaving.Sys, a: Interleaving.Action)
    requires Interleaving.Safe(s)
    ensures var next := Concurrency.Next(s, a);
      && (!a.Tick? ==> next.clock == s.clock)
      && |s.history| <= |next.history| && (|next.history| == |s.history| ==> next.db == s.db)
      && Appends(s.db, next.db)
      && (|next.history| > |s.history| ==>
            && EmitsOnlyAt(s.db, next.db, EmitsAt(next.history[|next.history| - 1]))
            && Shape(next.db)
            && forall w, i :: w in next.db.outbox && 0 <= i < |next.db.outbox[w]| ==>
              next.db.outbox[w][i].Aggregate() == w)
  {
    hide AllGood;
    hide Interleaving.AllFit;
    hide Interleaving.AllApart;
    hide Concurrency.Next;
    hide Step;
    hide Run;
    hide Guarantees.IsOf;
    hide EmitsOnlyAt;
    hide Appends;
    var next := Concurrency.Next(s, a);
    Guarantees.HistoryIsCommitOrder(s, a);
    Concurrency.NextKeeps(s, a);
    if !a.Tick? { EngineClock(s, a); }
    AppendsNothing(s.db);
    if |next.history| > |s.history| {
      StepAppends(s.db, next.history[|s.history|]);
      StepEmitsAt(s.db, next.history[|s.history|]);
    }
    forall w | w in next.db.outbox
      ensures forall i :: 0 <= i < |next.db.outbox[w]| ==> next.db.outbox[w][i].Aggregate() == w
    {
      OutboxIsOwn(next.db, w);
    }
  }

  lemma EngineClock(s: Interleaving.Sys, a: Interleaving.Action)
    requires Interleaving.Safe(s) && !a.Tick?
    ensures Concurrency.Next(s, a).clock == s.clock
  {
    hide AllGood;
    hide Interleaving.AllFit;
    hide Interleaving.AllApart;
    hide Interleaving.TxFits;
    hide Run;
    hide Step;
  }

  /** Publishers add no row and change no event. */
  lemma PublisherTied(db: Db, relay: Outbox.Relay, p: Outbox.Action)
    requires Tied(db, relay.rows) && !p.Arrive?
    ensures Tied(db, Outbox.Next(relay, p).rows)
  {
    hide Outbox.Next;
    EventsStay(relay, p);
  }

  lemma EventsStay(relay: Outbox.Relay, p: Outbox.Action)
    requires !p.Arrive?
    ensures Outbox.Next(relay, p).rows.Keys == relay.rows.Keys
    ensures forall id :: id in relay.rows ==> Outbox.Next(relay, p).rows[id].event == relay.rows[id].event
  {
    hide Outbox.Delay;
  }

  lemma NextSafe(s: State, act: Act)
    requires Safe(s)
    ensures Safe(Next(s, act))
  {
    hide Interleaving.Safe;
    hide Outbox.Safe;
    hide Tied;
    match act
    case Engine(a) => EngineSafe(s, a);
    case Publisher(p) =>
      if !p.Arrive? && !p.Tick? {
        Outbox.StepSafe(s.relay, p);
        PublisherTied(s.engine.db, s.relay, p);
      }
    case Elapse(d) =>
      Concurrency.NextKeeps(s.engine, Interleaving.Tick(d));
      Outbox.StepSafe(s.relay, Outbox.Tick(d));
  }

  lemma StartSafe(longest: nat)
    ensures Safe(State(Concurrency.START, Outbox.Relay(map[], map[], [], NO_TIME, {}, longest)))
  {
    EmptyKeeps();
    assert Run([]) == EMPTY;
  }

  /** Any interleaving of transactions, claims and publications, from empty tables. */
  ghost function Execute(acts: seq<Act>, longest: nat): (s: State)
    ensures Safe(s) && s.relay.longest == longest
  {
    hide Interleaving.Safe;
    hide Outbox.Safe;
    hide Tied;
    if acts == [] then
      StartSafe(longest);
      State(Concurrency.START, Outbox.Relay(map[], map[], [], NO_TIME, {}, longest))
    else
      var before := Execute(acts[..|acts| - 1], longest);
      NextSafe(before, acts[|acts| - 1]);
      NextKeepsLease(before, acts[|acts| - 1]);
      Next(before, acts[|acts| - 1])
  }

  lemma NextKeepsLease(s: State, act: Act)
    requires Interleaving.Safe(s.engine)
    ensures Next(s, act).relay.longest == s.relay.longest
  {
    hide Interleaving.Safe;
    hide Concurrency.Next;
    hide NewIds;
    match act
    case Engine(a) =>
      var next := Concurrency.Next(s.engine, a);
      if |next.history| > |s.engine.history| {
        var es := Added(s.engine.db, next.db, EmitsAt(next.history[|next.history| - 1]));
        if NewIds(s.relay.rows, es) { ArrivedAre(s.relay, es); }
      }
    case _ =>
  }

  // ---------- nothing committed is lost ----------

  lemma NextAppends(s: State, act: Act)
    requires Safe(s)
    ensures Appends(s.engine.db, Next(s, act).engine.db)
  {
    hide Interleaving.Safe;
    hide Outbox.Safe;
    hide Tied;
    hide NewIds;
    hide Concurrency.Next;
    hide Appends;
    AppendsNothing(s.engine.db);
    match act
    case Engine(a) => EngineFacts(s.engine, a);
    case Publisher(_) =>
    case Elapse(d) => EngineFacts(s.engine, Interleaving.Tick(d));
  }

  lemma ExecuteUnfolds(acts: seq<Act>, longest: nat)
    requires acts != []
    ensures Execute(acts, longest) == Next(Execute(acts[..|acts| - 1], longest), acts[|acts| - 1])
  {
    hide Safe;
    hide Next;
  }

  lemma {:induction false} ExecuteAppends(acts: seq<Act>, more: seq<Act>, longest: nat)
    ensures Appends(Execute(acts, longest).engine.db, Execute(acts + more, longest).engine.db)
    decreases |more|
  {
    hide Execute;
    hide Safe;
    hide Next;
    hide Appends;
    if more == [] {
      assert acts + more == acts;
      AppendsNothing(Execute(acts, longest).engine.db);
    } else {
      var front := acts + more[..|more| - 1];
      assert (acts + more)[..|acts + more| - 1] == front;
      ExecuteUnfolds(acts + more, longest);
      ExecuteAppends(acts, more[..|more| - 1], longest);
      NextAppends(Execute(front, longest), more[|more| - 1]);
      AppendsOn(Execute(acts, longest).engine.db, Execute(front, longest).engine.db,
        Execute(acts + more, longest).engine.db);
    }
  }

  /**
   * The state of an event's row: accepted by the broker and marked, or to be claimed once the longest backoff and lease
   * have passed.
   */
  ghost predicate OnItsWay(relay: Outbox.Relay, e: Event, d: nat) {
    && e.meta.id in relay.rows && relay.rows[e.meta.id].event == e
    && (if relay.rows[e.meta.id].publishedAt.Some? then e in relay.log
        else Outbox.Free(relay.rows[e.meta.id], relay.clock + d))
  }

  lemma RowIsOnItsWay(relay: Outbox.Relay, e: Event, d: nat)
    requires Outbox.Safe(relay) && e.meta.id in relay.rows && relay.rows[e.meta.id].event == e
    requires d >= HOUR && d > relay.longest
    ensures OnItsWay(relay, e, d)
  {
    assert Outbox.RowSafe(relay, e.meta.id, relay.rows[e.meta.id]);
  }

  /**
   * An event that some transaction has committed is in the outbox at every later moment of every joint run, with its
   * payload; it has been accepted by the broker, or some publisher can still take it.
   */
  lemma NoEventIsLost(acts: seq<Act>, more: seq<Act>, longest: nat, wid: Id, e: Event, d: nat)
    requires wid in Execute(acts, longest).engine.db.outbox && e in Execute(acts, longest).engine.db.outbox[wid]
    requires d >= HOUR && d > longest
    ensures OnItsWay(Execute(acts + more, longest).relay, e, d)
  {
    hide Execute;
    hide Interleaving.Safe;
    hide Outbox.Safe;
    hide OnItsWay;
    var s, s' := Execute(acts, longest), Execute(acts + more, longest);
    ExecuteAppends(acts, more, longest);
    var k :| 0 <= k < |s.engine.db.outbox[wid]| && s.engine.db.outbox[wid][k] == e;
    assert s'.engine.db.outbox[wid][k] == e;
    RowIsOnItsWay(s'.relay, e, d);
  }

  /**
   * And when a wallet's events are all published, a consumer of the broker's log shows the balance that was committed.
   */
  lemma ConsumerCatchesUp(acts: seq<Act>, longest: nat, wid: Id)
    requires wid in Execute(acts, longest).engine.db.wallets
    requires var rows := Execute(acts, longest).relay.rows;
      forall id :: id in rows && rows[id].event.Aggregate() == wid ==> rows[id].publishedAt.Some?
    ensures var s := Execute(acts, longest);
      Project(Changes(Received(s.relay.log, wid))).minor == s.engine.db.wallets[wid].balance.minor
  {
    hide Execute;
    hide Inv;
    hide Interleaving.AllFit;
    hide Interleaving.AllApart;
    hide Run;
    hide Outbox.Safe;
    hide Project;
    hide Changes;
    hide Received;
    var s := Execute(acts, longest);
    AllPublished(s, wid);
    PublishedIsShown(s.engine.history, s.relay, wid);
  }

  lemma AllPublished(s: State, wid: Id)
    requires Safe(s) && wid in s.engine.db.wallets
    requires forall id :: id in s.relay.rows && s.relay.rows[id].event.Aggregate() == wid ==>
      s.relay.rows[id].publishedAt.Some?
    ensures wid in s.engine.db.outbox && Published(s.engine.db, s.relay, wid)
  {
    hide AllGood;
    hide Interleaving.AllFit;
    hide Interleaving.AllApart;
    hide Run;
    hide Outbox.Safe;
    hide Placed;
    hide KeyIndex;
    hide ExternalIndex;
    hide InboxClosed;
    OutboxIsOwn(s.engine.db, wid);
  }
}
