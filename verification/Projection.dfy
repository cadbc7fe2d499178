/**
 * A consumer's projection of balances, fed in any order and with any repetition (README.md, internal/domain/events.go).
 */
module Projection {
  import opened Prelude
  import opened Tables
  import opened Accounts
  import opened Emission
  import opened Reachable
  import opened Runs

  /** What the consumer keeps of one wallet: the highest version seen and the balance it came with. */
  datatype View = View(version: int, minor: int)

  const BLANK := View(0, 0)

  /** An event that is not newer than what is kept does not regress the projection. */
  function Receive(v: View, c: Emission.Change): View {
    if c.version > v.version then View(c.version, c.entry.balanceAfter.minor) else v
  }

  function Project(delivered: seq<Emission.Change>): View {
    if delivered == [] then BLANK else Receive(Project(delivered[..|delivered| - 1]), delivered[|delivered| - 1])
  }

  /** Each version is carried by exactly one balance event, and the versions run without a gap up to the present one. */
  lemma VersionsContiguous(a: Account)
    requires Current(a) && ChangesFollow(a)
    ensures var cs := Changes(a.events);
      && |cs| == |a.ledger|
      && (forall i :: 0 <= i < |cs| ==> cs[i].version == VersionAt(a, i + 1) && cs[i].entry == a.ledger[i])
      && (forall i :: 0 < i < |cs| ==> cs[i].version == cs[i - 1].version + 1)
      && (cs != [] ==> cs[|cs| - 1].version == a.wallet.version && 1 <= cs[0].version <= 2)
  {
  }

  /** The projection is always some committed state of the wallet, and the newest one delivered. */
  lemma {:induction false} ProjectionIsPast(a: Account, delivered: seq<Emission.Change>)
    requires Current(a) && ChangesFollow(a) && forall c :: c in delivered ==> c in Changes(a.events)
    ensures delivered == [] ==> Project(delivered) == BLANK
    ensures delivered != [] ==> IsPast(a, Project(delivered))
    ensures forall c :: c in delivered ==> c.version <= Project(delivered).version
  {
    if delivered != [] {
      var front, last := delivered[..|delivered| - 1], delivered[|delivered| - 1];
      ProjectionIsPast(a, front);
      assert delivered == front + [last] && last in delivered;
      ChangeIsPast(a, last);
      assert last.version > BLANK.version;
    }
  }

  /** Each balance event shows the wallet as it was after its entry. */
  lemma ChangeIsPast(a: Account, c: Emission.Change)
    requires Current(a) && ChangesFollow(a) && c in Changes(a.events)
    ensures IsPast(a, View(c.version, c.entry.balanceAfter.minor)) && c.version >= 1
  {
    var i :| 0 <= i < |Changes(a.events)| && Changes(a.events)[i] == c;
    assert Shows(a, View(c.version, c.entry.balanceAfter.minor), i);
  }

  ghost predicate IsPast(a: Account, v: View) {
    exists i :: 0 <= i < |a.ledger| && Shows(a, v, i)
  }

  predicate Shows(a: Account, v: View, i: nat)
    requires i < |a.ledger|
  {
    v == View(VersionAt(a, i + 1), a.ledger[i].balanceAfter.minor)
  }

  lemma SameElements(cs: seq<Emission.Change>, delivered: seq<Emission.Change>)
    requires forall c :: c in delivered <==> c in cs
    ensures cs == [] <==> delivered == []
  {
    if delivered != [] { assert delivered[0] in delivered; }
    if cs != [] { assert cs[0] in cs; }
  }

  lemma AccountConverges(a: Account, delivered: seq<Emission.Change>)
    requires Current(a) && ChangesFollow(a)
    requires forall c :: c in delivered <==> c in Changes(a.events)
    ensures Project(delivered).minor == a.wallet.balance.minor
    ensures a.ledger != [] ==> Project(delivered).version == a.wallet.version
  {
    ProjectionIsPast(a, delivered);
    SameElements(Changes(a.events), delivered);
    if a.ledger != [] {
      var last := Changes(a.events)[|a.ledger| - 1];
      assert last in Changes(a.events) && last in delivered;
      var i :| 0 <= i < |a.ledger| && Shows(a, Project(delivered), i);
    }
  }

  /**
   * After any run, delivering the wallet's balance events in any order and any number of times each leaves the
   * consumer at the stored balance.
   */
  lemma Converges(ops: seq<Op>, wid: Id, delivered: seq<Emission.Change>)
    requires wid in Run(ops).wallets
    requires forall c :: c in delivered <==> c in Changes(Run(ops).outbox[wid])
    ensures Project(delivered).minor == Run(ops).wallets[wid].balance.minor
    ensures Run(ops).ledger[wid] != [] ==> Project(delivered).version == Run(ops).wallets[wid].version
  {
    hide Run;
    GoodAccount(Run(ops), wid);
    AccountConverges(AccountOf(Run(ops), wid), delivered);
  }
}
