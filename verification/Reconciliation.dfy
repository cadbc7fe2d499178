/** The reconciliation report (internal/adapters/postgres/read.go). */
module Reconciliation {
  import opened Prelude
  import opened Money
  import opened Wallet
  import opened Ledger
  import opened Tables
  import opened ClosedForm
  import opened Reachable
  import opened Runs

  datatype Report = Report(walletId: Id, stored: Money, calculated: Money, difference: Money, consistent: bool,
    checkedEntries: nat)

  /** The sum runs over unbounded integers; only the net result must fit. */
  method Reconcile(w: WalletData, ledger: seq<LedgerData>) returns (r: Result<Report>)
    ensures var sum := Total(Flows(ledger));
      && (r.Ok? <==>
        w.balance.Valid() && MIN_INT64 <= sum <= MAX_INT64 && MIN_INT64 <= w.balance.minor - sum <= MAX_INT64)
      && (r.Ok? ==>
        r.value.stored == w.balance && r.value.calculated.minor == sum &&
          r.value.difference.minor == w.balance.minor - sum)
      && (r.Ok? ==>
        (r.value.consistent <==> w.balance.minor == sum) && r.value.checkedEntries == |ledger| &&
          r.value.walletId == w.id)
      && (r.Fail? ==>
        r.code == if !(MIN_INT64 <= sum <= MAX_INT64) then RECONCILIATION_OVERFLOW
          else if !w.balance.Valid() then INVALID_CURRENCY else OVERFLOW)
  {
    var sum, count := 0, 0;
    while count < |ledger|
      invariant 0 <= count <= |ledger| && sum == Total(Flows(ledger[..count]))
    {
      var e := ledger[count];
      FlowsGrow(ledger, count);
      match e.direction {
        case CREDIT => sum := sum + e.money.minor;
        case DEBIT => sum := sum - e.money.minor;
        case NONE =>
      }
      count := count + 1;
    }
    assert ledger[..|ledger|] == ledger;
    if sum < MIN_INT64 || sum > MAX_INT64 {
      return Fail(RECONCILIATION_OVERFLOW);
    }
    var stored :- NewMoney(w.balance.minor, w.balance.currency);
    var calculated := Money(sum, stored.currency);
    var difference :- Subtract(stored, calculated);
    return Ok(Report(w.id, stored, calculated, difference, difference.minor == 0, count));
  }

  /**
   * In every reachable state the net sum is the stored balance, so the report is consistent however large the gross
   * sums have grown.
   */
  lemma ReachableIsConsistent(ops: seq<Op>, wid: Id)
    requires wid in Run(ops).wallets
    ensures Total(Flows(Run(ops).ledger[wid])) == Run(ops).wallets[wid].balance.minor
    ensures 0 <= Run(ops).wallets[wid].balance.minor <= MAX_INT64 && Run(ops).wallets[wid].balance.Valid()
  {
    hide Run;
    hide AllGood;
    hide Flows;
    hide Total;
    GoodAccount(Run(ops), wid);
    Conservation(AccountOf(Run(ops), wid));
  }
}
