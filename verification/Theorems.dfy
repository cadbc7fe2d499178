/** Where money stands after any run, sequential or interleaved. */
module Theorems {
  import opened Prelude
  import opened Money
  import opened Wallet
  import opened Wager
  import opened Tables
  import opened Accounts
  import opened ClosedForm
  import opened Reachable
  import opened Runs
  import opened Interleaving
  import opened Concurrency

  /** Balance, version and ledger of a wallet after a run. */
  ghost predicate Conserved(a: Account) {
    && a.wallet.balance.minor == Total(Flows(a.ledger)) && a.wallet.balance.minor >= 0
    && (a.wallet.version as int) == 1 + |a.ledger| - (if Opened(a) then 1 else 0)
    && (forall i :: 0 <= i < |a.ledger| ==>
      a.ledger[i].balanceBefore == if i == 0 then Money(0, a.wallet.balance.currency) else a.ledger[i - 1].balanceAfter)
  }

  lemma SoundIsConserved(a: Account)
    requires Sound(a)
    ensures Conserved(a)
  {
    hide Rows;
    hide Posted;
    hide Accounts.Frozen;
    hide References;
    hide Single;
    hide Backed;
    hide Flows;
    hide Total;
    hide ValidWallet;
    Conservation(a);
    forall i | 0 <= i < |a.ledger| ensures a.ledger[i].balanceBefore == BalanceAt(a, i) {}
  }

  /** What holds of every account of a run. */
  lemma RunIsSound(ops: seq<Op>, wid: Id)
    requires wid in Run(ops).wallets
    ensures var a := AccountOf(Run(ops), wid); Sound(a) && Closed(a)
  {
    hide Run;
    hide Sound;
    hide Closed;
    GoodAccount(Run(ops), wid);
  }

  /**
   * However transactions interleave: balances are credits minus debits and never negative, each entry starts where
   * the previous one ended, the version counts the entries, and the balance is the opening plus the standing WINs
   * minus the standing BETs, whatever was reversed and re-reversed in between.
   */
  lemma MoneyIsConserved(acts: seq<Action>, wid: Id)
    requires wid in Execute(acts).db.wallets
    ensures var a := AccountOf(Execute(acts).db, wid); Conserved(a) && a.wallet.balance.minor == Total(Worths(a))
  {
    hide Execute;
    hide Run;
    hide Sound;
    hide Conserved;
    hide AllFit;
    hide AllApart;
    RunIsSound(Execute(acts).history, wid);
    SoundIsConserved(AccountOf(Execute(acts).db, wid));
  }

  /**
   * And its processed references form a graph of at most two steps into the past, in which nothing is reversed twice:
   * a wager points at an earlier one that carries the external id it names, of the same provider, player, wallet,
   * currency and round, a WIN or REFUND at a BET, a ROLLBACK at a BET, WIN or REFUND, and a reversal at its own amount.
   */
  lemma ReferencesAreShaped(acts: seq<Action>, wid: Id, x: Id, y: Id)
    requires wid in Execute(acts).db.wallets && Edge(AccountOf(Execute(acts).db, wid), x, y)
    ensures var a := AccountOf(Execute(acts).db, wid);
      && y in a.wagers && a.wagers[y].d.status == PROCESSED && a.wagers[y].d.resultVersion < a.wagers[x].d.resultVersion
      && (var q, t := a.wagers[x].d.req, a.wagers[y].d.req;
          && t.id == y != x == q.id && t.externalId == q.refExternal
          && t.providerId == q.providerId && t.playerId == q.playerId && t.walletId == q.walletId
          && t.money.currency == q.money.currency && t.roundId == q.roundId
          && q.kind in {WIN, REFUND, ROLLBACK} && (q.kind in {WIN, REFUND} ==> t.kind == BET)
          && (q.kind == ROLLBACK ==> t.kind in {BET, WIN, REFUND})
          && (q.kind in {REFUND, ROLLBACK} ==> t.money == q.money))
      && (a.wagers[x].d.req.kind in {REFUND, ROLLBACK} ==>
            forall q :: Edge(a, q, y) && a.wagers[q].d.req.kind in {REFUND, ROLLBACK} ==> q == x)
      && (forall z, u :: Edge(a, y, z) ==> !Edge(a, z, u))
  {
    hide Execute;
    hide Run;
    hide Edge;
    hide AllFit;
    hide AllApart;
    RunIsSound(Execute(acts).history, wid);
    GraphShape(AccountOf(Execute(acts).db, wid), x, y);
  }
}
