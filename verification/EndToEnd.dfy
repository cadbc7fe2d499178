/** From a committed movement to a consumer's balance, through the outbox and the broker. */
module EndToEnd {
  import opened Prelude
  import opened Ledger
  import opened Tables
  import opened Emission
  import opened Reachable
  import opened Runs
  import opened Projection
  import Outbox

  /** The events of one wallet among those the broker accepted: in its order, repeated as often as they were sent. */
  function Received(log: seq<Event>, wid: Id): seq<Event> {
    if log == [] then []
    else
      var e := log[|log| - 1];
      Received(log[..|log| - 1], wid) + if e.Aggregate() == wid then [e] else []
  }

  lemma {:induction false} ReceivedAre(log: seq<Event>, wid: Id)
    ensures forall e :: e in Received(log, wid) <==> e in log && e.Aggregate() == wid
  {
    if log != [] {
      ReceivedAre(log[..|log| - 1], wid);
      assert log == log[..|log| - 1] + [log[|log| - 1]];
    }
  }

  predicate Announces(e: Event, c: Emission.Change) {
    e.BalanceChanged? && c == Emission.Change(e.entry, e.walletVersion)
  }

  lemma {:induction false} ChangesAre(es: seq<Event>, c: Emission.Change)
    ensures c in Changes(es) <==> exists e :: e in es && Announces(e, c)
  {
    if es != [] {
      var front, last := es[..|es| - 1], es[|es| - 1];
      ChangesAre(front, c);
      assert es == front + [last];
      if exists e :: e in es && Announces(e, c) {
        var e :| e in es && Announces(e, c);
        assert e in front || e == last;
      }
      if c in Changes(front) {
        var e :| e in front && Announces(e, c);
        assert e in es;
      } else if c in Changes(es) {
        assert last in es && Announces(last, c);
      }
    }
  }

  /**
   * The outbox rows of the relay are the events that the run has committed for this wallet, and all have been
   * published.
   */
  ghost predicate Published(db: Db, s: Outbox.Relay, wid: Id)
    requires wid in db.outbox
  {
    && (forall e :: e in db.outbox[wid] ==>
      e.meta.id in s.rows && s.rows[e.meta.id].event == e && s.rows[e.meta.id].publishedAt.Some?)
    && (forall id :: id in s.rows && s.rows[id].event.Aggregate() == wid ==> s.rows[id].event in db.outbox[wid])
  }

  /** Published events and received events are the same, up to order and repetition. */
  lemma ReceivedIsPublished(db: Db, s: Outbox.Relay, wid: Id)
    requires Outbox.Safe(s) && wid in db.outbox && Published(db, s, wid)
    requires forall i :: 0 <= i < |db.outbox[wid]| ==> db.outbox[wid][i].Aggregate() == wid
    ensures forall e :: e in Received(s.log, wid) <==> e in db.outbox[wid]
  {
    ReceivedAre(s.log, wid);
    forall e | e in db.outbox[wid] ensures e in s.log {
      assert Outbox.RowSafe(s, e.meta.id, s.rows[e.meta.id]);
    }
  }

  /** A consumer that has read the log of a relay which published all events of a run shows the stored balance. */
  lemma PublishedIsShown(ops: seq<Op>, s: Outbox.Relay, wid: Id)
    requires wid in Run(ops).wallets && Outbox.Safe(s) && Published(Run(ops), s, wid)
    ensures Project(Changes(Received(s.log, wid))).minor == Run(ops).wallets[wid].balance.minor
  {
    hide Run;
    hide Published;
    hide Outbox.Safe;
    hide Project;
    hide Changes;
    hide Received;
    var db := Run(ops);
    GoodAccount(db, wid);
    OutboxIsOwn(db, wid);
    ReceivedIsPublished(db, s, wid);
    forall c ensures c in Changes(Received(s.log, wid)) <==> c in Changes(db.outbox[wid]) {
      ChangesAre(Received(s.log, wid), c);
      ChangesAre(db.outbox[wid], c);
    }
    Converges(ops, wid, Changes(Received(s.log, wid)));
  }

  lemma OutboxIsOwn(db: Db, wid: Id)
    requires Inv(db) && wid in db.wallets
    ensures forall i :: 0 <= i < |db.outbox[wid]| ==> db.outbox[wid][i].Aggregate() == wid
  {
    GoodAccount(db, wid);
    var a := AccountOf(db, wid);
    forall i | 0 <= i < |db.outbox[wid]| ensures db.outbox[wid][i].Aggregate() == wid {
      assert Carries(a, a.events[i]);
    }
  }
}
