/** Where a balance comes from: conservation, the closed form of money, and the shape of the reversal graph. */
module ClosedForm {
  import opened Prelude
  import opened Wallet
  import opened Wager
  import opened Ledger
  import opened Tables
  import opened Accounts

  function Total(s: seq<int>): int {
    if s == [] then 0 else Total(s[..|s| - 1]) + s[|s| - 1]
  }

  lemma TotalAppend(s: seq<int>, x: int)
    ensures Total(s + [x]) == Total(s) + x
  {
    assert (s + [x])[..|s|] == s;
  }

  lemma {:induction false} TotalUpdate(s: seq<int>, i: nat, x: int)
    requires i < |s|
    ensures Total(s[i := x]) == Total(s) - s[i] + x
  {
    var t := s[i := x];
    var n := |s| - 1;
    if i < n {
      TotalUpdate(s[..n], i, x);
      assert t[..n] == s[..n][i := x];
    } else {
      assert t[..n] == s[..n];
    }
  }

  // ---------- conservation ----------

  /** Credits and debits, with their sign. */
  function Flows(ledger: seq<LedgerData>): seq<int> {
    seq(|ledger|, i requires 0 <= i < |ledger| => Signed(ledger[i].direction, ledger[i].money.minor))
  }

  lemma EntryAdds(a: Account, i: nat)
    requires Chain(a) && i < |a.ledger|
    ensures BalanceAt(a, i + 1).minor == BalanceAt(a, i).minor + Signed(a.ledger[i].direction, a.ledger[i].money.minor)
  {
    assert NewLedgerEntry(a.ledger[i]).Ok? && a.ledger[i].balanceBefore == BalanceAt(a, i);
  }

  lemma FlowsGrow(ledger: seq<LedgerData>, k: nat)
    requires k < |ledger|
    ensures Total(Flows(ledger[..k + 1])) ==
      Total(Flows(ledger[..k])) + Signed(ledger[k].direction, ledger[k].money.minor)
  {
    var flow := Signed(ledger[k].direction, ledger[k].money.minor);
    assert Flows(ledger[..k + 1]) == Flows(ledger[..k]) + [flow];
    TotalAppend(Flows(ledger[..k]), flow);
  }

  lemma NothingFlows(ledger: seq<LedgerData>)
    ensures Total(Flows(ledger[..0])) == 0
  {
  }

  /** The balance after any prefix of the ledger is all it credited minus all it debited. */
  lemma {:induction false} PrefixConserves(a: Account, k: nat)
    requires Chain(a) && k <= |a.ledger|
    ensures BalanceAt(a, k).minor == Total(Flows(a.ledger[..k]))
  {
    hide Chain;
    hide Flows;
    if k == 0 {
      NothingFlows(a.ledger);
    } else {
      PrefixConserves(a, k - 1);
      FlowsGrow(a.ledger, k - 1);
      EntryAdds(a, k - 1);
    }
  }

  lemma Conservation(a: Account)
    requires Chain(a) && Current(a)
    ensures a.wallet.balance.minor == Total(Flows(a.ledger)) && a.wallet.balance.minor >= 0
  {
    PrefixConserves(a, |a.ledger|);
    assert a.ledger[..|a.ledger|] == a.ledger;
  }

  // ---------- the closed form ----------

  /** A wager stands when every reversal of it was itself reversed (in particular, when there is none). */
  ghost predicate Stands(a: Account, id: Id) {
    forall r {:trigger a.wagers[r]} :: r in a.wagers && Reverses(a.wagers[r].d, id) ==> ReversedIn(a, r)
  }

  /** What an entry is worth today: openings, standing WINs and standing BETs count, reversals do not. */
  ghost function Worth(a: Account, e: LedgerData): int {
    if e.transactionId !in a.wagers then 0
    else
      match a.wagers[e.transactionId].d.req.kind
      case OPENING => e.money.minor
      case WIN => if Stands(a, e.transactionId) then e.money.minor else 0
      case BET => if Stands(a, e.transactionId) then 0 - e.money.minor else 0
      case _ => 0
  }

  ghost function Worths(a: Account): seq<int> {
    seq(|a.ledger|, i requires 0 <= i < |a.ledger| => Worth(a, a.ledger[i]))
  }

  /** The balance is the opening plus the standing WINs minus the standing BETs. */
  ghost predicate Closed(a: Account) {
    a.wallet.balance.minor == Total(Worths(a))
  }

  /** Rolling back a ROLLBACK is not possible. */
  lemma RollbackIsFinal(a: Account, r: Id)
    requires References(a) && Rows(a) && r in a.wagers && a.wagers[r].d.req.kind == ROLLBACK
    ensures !ReversedIn(a, r)
  {
    forall q | q in a.wagers && Reverses(a.wagers[q].d, r) ensures false {
      assert RowFits(a.wallet, q, a.wagers[q]);
      ReversalIsReference(a, q);
    }
  }

  /** A processed reversal has a resolved reference of the kinds it may reverse. */
  lemma ReversalIsReference(a: Account, q: Id)
    requires References(a) && q in a.wagers && ValidWager(a.wagers[q].d)
    requires a.wagers[q].d.status == PROCESSED && IsReversal(a.wagers[q].d.req.kind)
    ensures a.wagers[q].d.req.refExternal != "" && ReferenceFits(a, a.wagers[q].d)
  {
  }

  /** For a WIN, standing is simply not being rolled back. */
  lemma WinStands(a: Account, id: Id)
    requires References(a) && Rows(a) && id in a.wagers && a.wagers[id].d.req.kind == WIN
    ensures Stands(a, id) <==> !ReversedIn(a, id)
  {
    forall r | r in a.wagers && Reverses(a.wagers[r].d, id) ensures !ReversedIn(a, r) {
      assert RowFits(a.wallet, r, a.wagers[r]);
      ReversalIsReference(a, r);
      RollbackIsFinal(a, r);
    }
  }

  /** A BET is live when it has no reversal, or when its reversal is a REFUND that was rolled back. */
  lemma BetStands(a: Account, id: Id)
    requires References(a) && Rows(a) && Single(a) && id in a.wagers && a.wagers[id].d.req.kind == BET
    ensures Stands(a, id) <==>
      !ReversedIn(a, id) ||
        exists r :: r in a.wagers && Reverses(a.wagers[r].d, id) && a.wagers[r].d.req.kind == REFUND && ReversedIn(a, r)
  {
    if ReversedIn(a, id) {
      var r :| r in a.wagers && Reverses(a.wagers[r].d, id);
      if a.wagers[r].d.req.kind == ROLLBACK {
        RollbackIsFinal(a, r);
      }
      assert forall q :: q in a.wagers && Reverses(a.wagers[q].d, id) ==> q == r;
    }
  }

  // ---------- the closed form is kept ----------

  lemma RecordKeepsClosed(a: Account, s: Standing, es: seq<Event>)
    requires Backed(a) && Closed(a) && MayRecord(a, s)
    ensures Closed(Record(a, s, es))
  {
    var b := Record(a, s, es);
    RecordFrames(a, s, es);
    SameReversals(a, b, s);
    forall i | 0 <= i < |a.ledger| ensures Worth(b, b.ledger[i]) == Worth(a, a.ledger[i]) {
      assert Backs(a, i);
      SameStanding(a, b, a.ledger[i].transactionId);
    }
    assert Worths(b) == Worths(a);
  }

  /** Writing a row that reverses nothing leaves every reversal as it was. */
  lemma SameReversals(a: Account, b: Account, s: Standing)
    requires MayWrite(a, s) && b.wagers == a.wagers[s.d.req.id := s] &&
      !(s.d.status == PROCESSED && IsReversal(s.d.req.kind))
    ensures forall r, id :: r in b.wagers && Reverses(b.wagers[r].d, id) <==>
      r in a.wagers && Reverses(a.wagers[r].d, id)
  {
    forall r, id
      ensures r in b.wagers && Reverses(b.wagers[r].d, id) <==> r in a.wagers && Reverses(a.wagers[r].d, id)
    {
      if r == s.d.req.id {
        assert !Reverses(s.d, id);
      }
    }
  }

  lemma SameStanding(a: Account, b: Account, id: Id)
    requires forall r, t :: r in b.wagers && Reverses(b.wagers[r].d, t) <==> r in a.wagers && Reverses(a.wagers[r].d, t)
    ensures Stands(b, id) == Stands(a, id)
  {
    forall r ensures ReversedIn(b, r) == ReversedIn(a, r) {}
  }

  lemma BookKeepsClosed(a: Account, w: WalletData, s: Standing, e: LedgerData, es: seq<Event>)
    requires Rows(a) && Backed(a) && Posted(a) && References(a) && Single(a) && Closed(a) && MayBook(a, w, s, e)
    ensures Closed(Book(a, w, s, e, es))
  {
    BookedBalance(a, w, s, e);
    if IsReversal(s.d.req.kind) {
      ReversalBalances(a, w, s, e, es);
    } else {
      OrdinaryBalances(a, w, s, e, es);
    }
    ClosedStep(a, Book(a, w, s, e, es), e);
  }

  lemma BookedBalance(a: Account, w: WalletData, s: Standing, e: LedgerData)
    requires MayBook(a, w, s, e)
    ensures w.balance.minor == a.wallet.balance.minor + Signed(e.direction, e.money.minor)
  {
  }

  lemma ClosedStep(a: Account, b: Account, e: LedgerData)
    requires Closed(a) && b.ledger == a.ledger + [e]
    requires b.wallet.balance.minor == a.wallet.balance.minor + Signed(e.direction, e.money.minor)
    requires Total(Worths(b)[..|a.ledger|]) + Worth(b, e) == Total(Worths(a)) + Signed(e.direction, e.money.minor)
    ensures Closed(b)
  {
    var earlier := Worths(b)[..|a.ledger|];
    assert Worths(b) == earlier + [Worth(b, e)];
    TotalAppend(earlier, Worth(b, e));
  }

  /** Booking a BET or a WIN leaves every earlier worth alone and adds its own. */
  lemma OrdinaryBalances(a: Account, w: WalletData, s: Standing, e: LedgerData, es: seq<Event>)
    requires Rows(a) && Backed(a) && References(a) && MayBook(a, w, s, e) && !IsReversal(s.d.req.kind)
    ensures var b := Book(a, w, s, e, es);
      && |Worths(b)| > |a.ledger| && Total(Worths(b)[..|a.ledger|]) == Total(Worths(a))
      && Worth(b, e) == Signed(e.direction, e.money.minor)
  {
    hide ReferenceFits;
    hide NewLedgerEntry;
    hide Stands;
    hide Worth;
    var b := Book(a, w, s, e, es);
    forall i | 0 <= i < |a.ledger| ensures Worth(b, b.ledger[i]) == Worth(a, a.ledger[i]) {
      OrdinaryWorth(a, b, s, i);
    }
    assert Worths(b)[..|a.ledger|] == Worths(a);
    OwnWorth(a, b, s, e);
  }

  lemma OrdinaryWorth(a: Account, b: Account, s: Standing, i: nat)
    requires Backed(a) && MayWrite(a, s) && !IsReversal(s.d.req.kind) && b.wagers == a.wagers[s.d.req.id := s]
    requires i < |a.ledger|
    ensures Worth(b, a.ledger[i]) == Worth(a, a.ledger[i])
  {
    SameReversals(a, b, s);
    BookedElsewhere(a, s, i);
    SameStanding(a, b, a.ledger[i].transactionId);
  }

  lemma OwnWorth(a: Account, b: Account, s: Standing, e: LedgerData)
    requires Rows(a) && References(a) && MayWrite(a, s) && Financial(s.d) && !IsReversal(s.d.req.kind) &&
      b.wagers == a.wagers[s.d.req.id := s]
    requires e.transactionId == s.d.req.id && e.direction == ExpectedDirection(a, s.d)
    ensures Worth(b, e) == Signed(e.direction, e.money.minor)
  {
    SameReversals(a, b, s);
    NeverReversed(a, s);
    SameStanding(a, b, s.d.req.id);
  }

  lemma BookedElsewhere(a: Account, s: Standing, i: nat)
    requires Backed(a) && MayWrite(a, s) && i < |a.ledger|
    ensures a.ledger[i].transactionId != s.d.req.id
  {
    assert Backs(a, i);
  }

  /** A wager that was not processed before is nobody's resolved reference. */
  lemma NeverReversed(a: Account, s: Standing)
    requires Rows(a) && References(a) && MayWrite(a, s)
    ensures !ReversedIn(a, s.d.req.id)
  {
    forall q | q in a.wagers && Reverses(a.wagers[q].d, s.d.req.id) ensures false {
      assert RowFits(a.wallet, q, a.wagers[q]);
      ReversalIsReference(a, q);
    }
  }

  /** The wager whose worth a reversal of t switches: t itself, or the BET that a rolled back REFUND had reversed. */
  function Switched(a: Account, t: Id): Id
    requires t in a.wagers
  {
    if a.wagers[t].d.req.kind == REFUND then a.wagers[t].d.referenceId else t
  }

  /** Booking a reversal switches the worth of exactly one earlier entry, by exactly the amount booked. */
  lemma ReversalBalances(a: Account, w: WalletData, s: Standing, e: LedgerData, es: seq<Event>)
    requires Rows(a) && Backed(a) && Posted(a) && References(a) && Single(a) && MayBook(a, w, s, e) &&
      IsReversal(s.d.req.kind)
    ensures var b := Book(a, w, s, e, es);
      && |Worths(b)| > |a.ledger|
      && Total(Worths(b)[..|a.ledger|]) == Total(Worths(a)) + Signed(e.direction, e.money.minor)
      && Worth(b, e) == 0
  {
    hide RowFits;
    hide NewLedgerEntry;
    hide Stands;
    var b := Book(a, w, s, e, es);
    var j := SwitchedPlace(a, s);
    forall i | 0 <= i < |a.ledger| && i != j ensures Worth(b, a.ledger[i]) == Worth(a, a.ledger[i]) {
      OtherWorth(a, b, s, i, j);
    }
    SwitchedWorth(a, b, s, j);
    OneWorthChanges(a, b, e, j);
  }

  lemma OneWorthChanges(a: Account, b: Account, e: LedgerData, j: nat)
    requires b.ledger == a.ledger + [e] && j < |a.ledger|
    requires forall i :: 0 <= i < |a.ledger| && i != j ==> Worth(b, a.ledger[i]) == Worth(a, a.ledger[i])
    ensures Total(Worths(b)[..|a.ledger|]) == Total(Worths(a)) - Worth(a, a.ledger[j]) + Worth(b, a.ledger[j])
  {
    assert Worths(b)[..|a.ledger|] == Worths(a)[j := Worth(b, a.ledger[j])];
    TotalUpdate(Worths(a), j, Worth(b, a.ledger[j]));
  }

  /** Where the ledger holds the entry that a reversal switches. */
  lemma SwitchedPlace(a: Account, s: Standing) returns (j: nat)
    requires Rows(a) && Posted(a) && References(a)
    requires ReferenceFits(a, s.d) && IsReversal(s.d.req.kind)
    ensures j < |a.ledger| && a.ledger[j].transactionId == Switched(a, s.d.referenceId)
    ensures a.wagers[s.d.referenceId].d.req.kind == REFUND ==> ReferenceFits(a, a.wagers[s.d.referenceId].d)
  {
    var t := s.d.referenceId;
    if a.wagers[t].d.req.kind == REFUND {
      assert RowFits(a.wallet, t, a.wagers[t]);
      ReversalIsReference(a, t);
    }
    var x := Switched(a, t);
    assert Financial(a.wagers[x].d);
    j := PrefixOf(a, a.wagers[x].d.resultVersion) - 1;
  }

  /** Which reversals exist after a reversal was booked: the old ones and the new one. */
  lemma ReversalsAfter(a: Account, b: Account, s: Standing, id: Id)
    requires MayWrite(a, s) && s.d.status == PROCESSED && IsReversal(s.d.req.kind) &&
      b.wagers == a.wagers[s.d.req.id := s]
    ensures forall r :: r in b.wagers && Reverses(b.wagers[r].d, id) <==>
      (r in a.wagers && Reverses(a.wagers[r].d, id)) || (r == s.d.req.id && id == s.d.referenceId)
    ensures ReversedIn(b, id) <==> ReversedIn(a, id) || id == s.d.referenceId
  {
    if id == s.d.referenceId {
      assert Reverses(b.wagers[s.d.req.id].d, id);
    }
    if ReversedIn(a, id) {
      var r :| r in a.wagers && Reverses(a.wagers[r].d, id);
      assert Reverses(b.wagers[r].d, id);
    }
  }

  /** Only the switched wager changes its standing. */
  lemma OtherStanding(a: Account, b: Account, s: Standing, id: Id)
    requires Rows(a) && References(a) && Single(a)
    requires MayWrite(a, s) && Financial(s.d) && IsReversal(s.d.req.kind) && b.wagers == a.wagers[s.d.req.id := s]
    requires ReferenceFits(a, s.d) && id != Switched(a, s.d.referenceId)
    requires id in a.wagers && a.wagers[id].d.req.kind in {BET, WIN}
    ensures Stands(b, id) == Stands(a, id)
  {
    hide RowFits;
    var t := s.d.referenceId;
    ReversalsAfter(a, b, s, id);
    assert id != t;
    forall r | r in a.wagers && Reverses(a.wagers[r].d, id) ensures ReversedIn(b, r) == ReversedIn(a, r) {
      ReversalsAfter(a, b, s, r);
      if r == t {
        ReversedOnce(a, t, id);
      }
    }
  }

  /** A reversal that may itself be reversed is a REFUND, and it reverses the BET it names. */
  lemma ReversedOnce(a: Account, t: Id, id: Id)
    requires t in a.wagers && Reverses(a.wagers[t].d, id) && a.wagers[t].d.req.kind in {BET, WIN, REFUND}
    ensures id == Switched(a, t)
  {
  }

  lemma OtherWorth(a: Account, b: Account, s: Standing, i: nat, j: nat)
    requires Rows(a) && Backed(a) && Posted(a) && References(a) && Single(a)
    requires MayWrite(a, s) && Financial(s.d) && IsReversal(s.d.req.kind) && b.wagers == a.wagers[s.d.req.id := s]
    requires ReferenceFits(a, s.d) && j < |a.ledger| && a.ledger[j].transactionId == Switched(a, s.d.referenceId)
    requires i < |a.ledger| && i != j
    ensures Worth(b, a.ledger[i]) == Worth(a, a.ledger[i])
  {
    hide RowFits;
    hide ReferenceFits;
    hide Stands;
    assert Backs(a, i) && Backs(a, j);
    var id := a.ledger[i].transactionId;
    assert id != a.ledger[j].transactionId;
    if a.wagers[id].d.req.kind in {BET, WIN} {
      OtherStanding(a, b, s, id);
    }
  }

  /** A reversed BET or WIN no longer stands; the BET behind a reversed REFUND stands again. */
  lemma SwitchedStanding(a: Account, b: Account, s: Standing)
    requires Rows(a) && References(a) && Single(a)
    requires MayWrite(a, s) && Financial(s.d) && IsReversal(s.d.req.kind) && b.wagers == a.wagers[s.d.req.id := s]
    requires s.d.referenceId in a.wagers && !ReversedIn(a, s.d.referenceId) &&
      a.wagers[s.d.referenceId].d.status == PROCESSED
    ensures var t := s.d.referenceId; var x := Switched(a, t);
      if a.wagers[t].d.req.kind == REFUND then !Stands(a, x) && Stands(b, x) else Stands(a, x) && !Stands(b, x)
  {
    hide RowFits;
    hide ReferenceFits;
    var t := s.d.referenceId;
    var x := Switched(a, t);
    ReversalsAfter(a, b, s, t);
    ReversalsAfter(a, b, s, x);
    NeverReversed(a, s);
    if a.wagers[t].d.req.kind == REFUND {
      assert Reverses(a.wagers[t].d, x);
      assert forall r :: r in a.wagers && Reverses(a.wagers[r].d, x) ==> r == t;
    } else {
      ReversalsAfter(a, b, s, s.d.req.id);
      assert s.d.req.id in b.wagers && Reverses(b.wagers[s.d.req.id].d, t);
    }
  }

  lemma SwitchedWorth(a: Account, b: Account, s: Standing, j: nat)
    requires Rows(a) && Backed(a) && References(a) && Single(a)
    requires MayWrite(a, s) && Financial(s.d) && IsReversal(s.d.req.kind) && b.wagers == a.wagers[s.d.req.id := s]
    requires ReferenceFits(a, s.d) && !ReversedIn(a, s.d.referenceId)
    requires a.wagers[s.d.referenceId].d.req.kind == REFUND ==> ReferenceFits(a, a.wagers[s.d.referenceId].d)
    requires j < |a.ledger| && a.ledger[j].transactionId == Switched(a, s.d.referenceId)
    ensures Worth(b, a.ledger[j]) - Worth(a, a.ledger[j]) == Signed(ExpectedDirection(a, s.d), s.d.req.money.minor)
  {
    hide Stands;
    hide RowFits;
    hide ReversedIn;
    assert Backs(a, j);
    SwitchedStanding(a, b, s);
  }

  // ---------- the reversal graph ----------

  /** A processed wager points at its resolved reference. */
  ghost predicate Edge(a: Account, x: Id, y: Id) {
    x in a.wagers && a.wagers[x].d.status == PROCESSED && a.wagers[x].d.req.refExternal != "" &&
      a.wagers[x].d.referenceId == y
  }

  /**
   * Edges lead to earlier processed wagers of the same provider, player, wallet, currency and round,
   * reversal edges join equal amounts, at most one of them enters a wager, and two edges end every path.
   */
  lemma GraphShape(a: Account, x: Id, y: Id)
    requires Rows(a) && References(a) && Single(a) && Edge(a, x, y)
    ensures y in a.wagers && a.wagers[y].d.status == PROCESSED
    ensures a.wagers[y].d.resultVersion < a.wagers[x].d.resultVersion
    ensures var q, t := a.wagers[x].d.req, a.wagers[y].d.req;
      && t.id == y != x == q.id && t.externalId == q.refExternal
      && t.providerId == q.providerId && t.playerId == q.playerId && t.walletId == q.walletId
      && t.money.currency == q.money.currency && t.roundId == q.roundId
      && q.kind in {WIN, REFUND, ROLLBACK} && (q.kind in {WIN, REFUND} ==> t.kind == BET)
      && (q.kind == ROLLBACK ==> t.kind in {BET, WIN, REFUND})
      && (q.kind in {REFUND, ROLLBACK} ==> t.money == q.money)
    ensures a.wagers[x].d.req.kind in {REFUND, ROLLBACK} ==>
      forall q :: Edge(a, q, y) && a.wagers[q].d.req.kind in {REFUND, ROLLBACK} ==> q == x
    ensures forall z, u :: Edge(a, y, z) ==> !Edge(a, z, u)
  {
    assert RowFits(a.wallet, x, a.wagers[x]) && ReferenceFits(a, a.wagers[x].d);
    assert RowFits(a.wallet, y, a.wagers[y]);
    forall q | Edge(a, q, y) && IsReversal(a.wagers[q].d.req.kind) && IsReversal(a.wagers[x].d.req.kind)
      ensures q == x
    {
      assert Reverses(a.wagers[q].d, y) && Reverses(a.wagers[x].d, y);
    }
    forall z, u | Edge(a, y, z) ensures !Edge(a, z, u) {
      assert ReferenceFits(a, a.wagers[y].d);
      assert RowFits(a.wallet, z, a.wagers[z]);
      SecondEdgeEndsAtBet(a, x, y);
    }
  }

  lemma SecondEdgeEndsAtBet(a: Account, x: Id, y: Id)
    requires x in a.wagers && y in a.wagers && ReferenceFits(a, a.wagers[x].d) && a.wagers[x].d.referenceId == y
    requires a.wagers[y].d.req.refExternal != "" && ReferenceFits(a, a.wagers[y].d)
    requires ValidWager(a.wagers[x].d) && a.wagers[x].d.req.refExternal != ""
    requires ValidWager(a.wagers[y].d) && ValidWager(a.wagers[a.wagers[y].d.referenceId].d)
    ensures a.wagers[a.wagers[y].d.referenceId].d.req.kind == BET
    ensures a.wagers[a.wagers[y].d.referenceId].d.req.refExternal == ""
  {
  }
}
