/** Which events a wallet's outbox holds, against its wagers and its ledger. */
module Emission {
  import opened Prelude
  import opened Wallet
  import opened Wager
  import opened Ledger
  import opened Accounts

  /** The event reports this wager, in a terminal state or waiting. */
  predicate Reports(e: Event, id: Id, terminal: bool) {
    e.WagerEvent? && e.data.req.id == id && e.data.status.Terminal() == terminal
  }

  function Count(es: seq<Event>, id: Id, terminal: bool): nat {
    if es == [] then 0
    else Count(es[..|es| - 1], id, terminal) + if Reports(es[|es| - 1], id, terminal) then 1 else 0
  }

  datatype Change = Change(entry: LedgerData, version: int)

  /** The balance changes, in emission order. */
  function Changes(es: seq<Event>): seq<Change> {
    if es == [] then []
    else
      var e := es[|es| - 1];
      Changes(es[..|es| - 1]) + if e.BalanceChanged? then [Change(e.entry, e.walletVersion)] else []
  }

  lemma Appended(es: seq<Event>, e: Event)
    ensures forall id, t :: Count(es + [e], id, t) == Count(es, id, t) + if Reports(e, id, t) then 1 else 0
    ensures Changes(es + [e]) == Changes(es) + if e.BalanceChanged? then [Change(e.entry, e.walletVersion)] else []
  {
    assert (es + [e])[..|es|] == es;
  }

  /** A wager that is waiting now or was retried at least once has been waiting. */
  predicate EverWaited(s: Standing) {
    s.d.status == PENDING_REFERENCE || s.attempts >= 1
  }

  /** The events a wager is due: one terminal event once it is terminal, one waiting event once it has waited. */
  function Due(wagers: map<Id, Standing>, id: Id, terminal: bool): nat {
    if id in wagers && (if terminal then wagers[id].d.status.Terminal() else EverWaited(wagers[id])) then 1 else 0
  }

  /**
   * One terminal event for each terminal wager, one waiting event for each wager that ever waited,
   * one balance event for each ledger entry in ledger order with its version; a terminal event
   * carries the wager as it stands.
   */
  ghost predicate Emitted(a: Account) {
    && Counted(a.events, a.wagers)
    && ChangesFollow(a)
    && (forall i :: 0 <= i < |a.events| ==> Carries(a, a.events[i]))
  }

  ghost predicate Counted(es: seq<Event>, wagers: map<Id, Standing>) {
    forall id, t :: Count(es, id, t) == Due(wagers, id, t)
  }

  ghost predicate ChangesFollow(a: Account) {
    var cs := Changes(a.events);
    && |cs| == |a.ledger|
    && forall i :: 0 <= i < |cs| ==> cs[i] == Change(a.ledger[i], VersionAt(a, i + 1))
  }

  predicate Carries(a: Account, e: Event) {
    && e.Aggregate() == a.wallet.id
    && (e.WagerEvent? && e.data.status.Terminal() ==> e.data.req.id in a.wagers && a.wagers[e.data.req.id].d == e.data)
  }

  /** The events of a recorded row: none for a wager that keeps waiting, else the one of its new status. */
  predicate RecordEvents(a: Account, s: Standing, es: seq<Event>) {
    if s.d.req.id in a.wagers && s.d.status == PENDING_REFERENCE then es == []
    else |es| == 1 && es[0].WagerEvent? && es[0].data == s.d
  }

  predicate BookEvents(w: WalletData, s: Standing, e: LedgerData, es: seq<Event>) {
    && |es| == 2 && es[0].WagerEvent? && es[0].data == s.d
    && es[1].BalanceChanged? && es[1].entry == e && es[1].walletVersion == w.version
  }

  lemma RecordKeepsEmitted(a: Account, s: Standing, es: seq<Event>)
    requires Backed(a) && Emitted(a) && MayRecord(a, s) && RecordEvents(a, s, es)
    ensures Emitted(Record(a, s, es))
  {
    hide Backed;
    hide RowFits;
    hide Counted;
    hide ChangesFollow;
    hide Carries;
    hide RecordEvents;
    RecordKeepsCounted(a, s, es);
    RecordKeepsChanges(a, s, es);
    RecordCarries(a, s, es);
  }

  lemma RecordKeepsChanges(a: Account, s: Standing, es: seq<Event>)
    requires Backed(a) && ChangesFollow(a) && MayRecord(a, s) && RecordEvents(a, s, es)
    ensures ChangesFollow(Record(a, s, es))
  {
    hide Backed;
    hide MayRecord;
    RecordFrames(a, s, es);
    if es == [] {
      assert a.events + es == a.events;
    } else {
      assert es == [es[0]];
      Appended(a.events, es[0]);
    }
  }

  lemma RecordCarries(a: Account, s: Standing, es: seq<Event>)
    requires MayRecord(a, s) && RecordEvents(a, s, es)
    requires forall i :: 0 <= i < |a.events| ==> Carries(a, a.events[i])
    ensures var b := Record(a, s, es); forall i :: 0 <= i < |b.events| ==> Carries(b, b.events[i])
  {
    CarriesOn(a, Record(a, s, es), s);
  }

  /** Writing a row changes only what that row is due. */
  lemma WriteIsDue(a: Account, s: Standing, id: Id, t: bool)
    requires MayWrite(a, s)
    ensures Due(a.wagers[s.d.req.id := s], id, t) ==
      Due(a.wagers, id, t) + if id == s.d.req.id && t == s.d.status.Terminal() && !(s.d.req.id in a.wagers && !t) then 1
        else 0
  {
  }

  lemma RecordKeepsCounted(a: Account, s: Standing, es: seq<Event>)
    requires Counted(a.events, a.wagers) && MayWrite(a, s) && RecordEvents(a, s, es)
    ensures Counted(a.events + es, a.wagers[s.d.req.id := s])
  {
    if es == [] {
      assert a.events + es == a.events;
    } else {
      assert a.events + es == a.events + [es[0]];
      Appended(a.events, es[0]);
    }
    forall id, t ensures Count(a.events + es, id, t) == Due(a.wagers[s.d.req.id := s], id, t) {
      WriteIsDue(a, s, id, t);
      assert Count(a.events, id, t) == Due(a.wagers, id, t);
    }
  }

  lemma BookKeepsEmitted(a: Account, w: WalletData, s: Standing, e: LedgerData, es: seq<Event>)
    requires Backed(a) && Current(a) && Emitted(a) && MayBook(a, w, s, e) && BookEvents(w, s, e, es)
    ensures Emitted(Book(a, w, s, e, es))
  {
    var b := Book(a, w, s, e, es);
    BookKeepsCounted(a, w, s, e, es);
    BookKeepsChanges(a, w, s, e, es);
    CarriesOn(a, b, s);
  }

  lemma EventsAppended(a: Account, es: seq<Event>)
    requires |es| == 2
    ensures a.events + es == a.events + [es[0]] + [es[1]]
  {
  }

  lemma BookKeepsCounted(a: Account, w: WalletData, s: Standing, e: LedgerData, es: seq<Event>)
    requires Counted(a.events, a.wagers) && MayWrite(a, s) && Financial(s.d) && BookEvents(w, s, e, es)
    ensures Counted(a.events + es, a.wagers[s.d.req.id := s])
  {
    EventsAppended(a, es);
    Appended(a.events, es[0]);
    Appended(a.events + [es[0]], es[1]);
    forall id, t ensures Count(a.events + es, id, t) == Due(a.wagers[s.d.req.id := s], id, t) {
      WriteIsDue(a, s, id, t);
      assert Count(a.events, id, t) == Due(a.wagers, id, t);
    }
  }

  lemma BookKeepsChanges(a: Account, w: WalletData, s: Standing, e: LedgerData, es: seq<Event>)
    requires Backed(a) && Current(a) && ChangesFollow(a) && MayBook(a, w, s, e) && BookEvents(w, s, e, es)
    ensures ChangesFollow(Book(a, w, s, e, es))
  {
    hide Backed;
    hide MayWrite;
    hide ValidWallet;
    hide NewLedgerEntry;
    hide ReferenceFits;
    hide ExpectedDirection;
    hide Changes;
    var b := Book(a, w, s, e, es);
    BookFrames(a, w, s, e, es);
    EventsAppended(a, es);
    Appended(a.events, es[0]);
    Appended(a.events + [es[0]], es[1]);
    assert Changes(b.events) == Changes(a.events) + [Change(e, w.version)];
  }

  /** Old events still carry what stands: a terminal wager's row is not written again. */
  lemma CarriesOn(a: Account, b: Account, s: Standing)
    requires MayWrite(a, s) && b.wagers == a.wagers[s.d.req.id := s] && b.wallet.id == a.wallet.id
    requires forall i :: 0 <= i < |a.events| ==> Carries(a, a.events[i])
    ensures forall i :: 0 <= i < |a.events| ==> Carries(b, a.events[i])
  {
    forall i | 0 <= i < |a.events| ensures Carries(b, a.events[i]) {
      assert Carries(a, a.events[i]);
    }
  }
}
