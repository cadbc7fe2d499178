/** From every safe state all transactions in progress can be brought to their end, one statement after the other. */
module Progress {
  import opened Prelude
  import opened Settlement
  import opened Reachable
  import opened Runs
  import opened Interleaving
  import opened Commits
  import opened Concurrency
  import opened Guarantees

  // ---------- runs from any safe state ----------

  ghost function Continue(s: Sys, acts: seq<Action>): (r: Sys)
    requires Safe(s)
    ensures Safe(r)
    decreases |acts|
  {
    hide Safe;
    hide Next;
    if acts == [] then s
    else
      NextKeeps(s, acts[0]);
      Continue(Next(s, acts[0]), acts[1..])
  }

  lemma ContinueUnfolds(s: Sys, acts: seq<Action>)
    requires Safe(s) && acts != []
    ensures Safe(Next(s, acts[0])) && Continue(s, acts) == Continue(Next(s, acts[0]), acts[1..])
  {
    hide Safe;
    hide Next;
    NextKeeps(s, acts[0]);
  }

  lemma {:induction false} ContinueIsExecute(acts: seq<Action>, more: seq<Action>)
    ensures Continue(Execute(acts), more) == Execute(acts + more)
    decreases |more|
  {
    hide Execute;
    hide Safe;
    hide Next;
    if more == [] {
      assert acts + more == acts;
    } else {
      var on := acts + [more[0]];
      assert on[..|on| - 1] == acts;
      ExecuteUnfolds(on);
      ContinueUnfolds(Execute(acts), more);
      ContinueIsExecute(on, more[1..]);
      assert on + more[1..] == acts + more;
    }
  }

  // ---------- fresh identifiers ----------

  lemma {:induction false} Above(ids: set<nat>) returns (n: nat)
    ensures forall id :: id in ids ==> id < n
    decreases |ids|
  {
    if ids == {} {
      n := 0;
    } else {
      var id :| id in ids;
      var m := Above(ids - {id});
      n := if id < m then m else id + 1;
      forall x | x in ids ensures x < n { assert x == id || x in ids - {id}; }
    }
  }

  lemma FreshId(s: Sys) returns (id: Id)
    ensures id !in s.db.wagers && !SomeoneUsesId(s, id)
  {
    var held := set u | u in s.txs && RowHeld(s.txs[u]).Some? :: RowHeld(s.txs[u]).value.id;
    id := Above(s.db.wagers.Keys + held);
    forall u | u in s.txs && RowHeld(s.txs[u]).Some? ensures RowHeld(s.txs[u]).value.id != id {
      assert RowHeld(s.txs[u]).value.id in held;
    }
  }

  // ---------- the statements that are left ----------

  /** How many statements the transactions below n have before them, at most. */
  function Left(txs: map<nat, Tx>, n: nat): nat {
    if n == 0 then 0 else Left(txs, n - 1) + if n - 1 in txs then 8 - Depth(txs[n - 1].phase) else 0
  }

  lemma {:induction false} LeftStays(txs: map<nat, Tx>, tid: nat, tx: Tx, n: nat)
    requires n <= tid
    ensures Left(txs[tid := tx], n) == Left(txs, n)
  {
    if n > 0 { LeftStays(txs, tid, tx, n - 1); }
  }

  lemma {:induction false} LeftDrops(txs: map<nat, Tx>, tid: nat, tx: Tx, n: nat)
    requires tid in txs && tid < n && Depth(tx.phase) > Depth(txs[tid].phase)
    ensures Left(txs[tid := tx], n) < Left(txs, n)
  {
    hide Depth;
    if tid == n - 1 {
      LeftStays(txs, tid, tx, n - 1);
    } else {
      LeftDrops(txs, tid, tx, n - 1);
    }
  }

  function Below(keys: set<nat>, n: nat): set<nat> {
    set t | t in keys && t < n
  }

  lemma {:induction false} LeftBounded(txs: map<nat, Tx>, n: nat)
    ensures Left(txs, n) <= 8 * |Below(txs.Keys, n)|
  {
    hide Depth;
    if n > 0 {
      LeftBounded(txs, n - 1);
      if n - 1 in txs {
        assert Below(txs.Keys, n) == Below(txs.Keys, n - 1) + {n - 1};
      } else {
        assert Below(txs.Keys, n) == Below(txs.Keys, n - 1);
      }
    }
  }

  // ---------- everyone ends ----------

  /** A statement or a commit changes its own transaction only. */
  lemma OthersStay(s: Sys, a: Action, tid: nat)
    requires Safe(s) && tid in s.txs && ((a.Statement? || a.Commit?) && a.tid == tid)
    ensures tid in Next(s, a).txs && Next(s, a).txs == s.txs[tid := Next(s, a).txs[tid]]
  {
    hide Inv;
    hide AllFit;
    hide AllApart;
    hide Run;
    hide Effects;
    hide NextPhase;
    hide TxFits;
    hide Blocked;
    hide SomeoneUsesId;
    hide Serial;
    assert s.txs[tid := s.txs[tid]] == s.txs;
  }

  /** While someone is in progress, someone can take a step, and there is less to do then. */
  lemma StepsOn(s: Sys, tid: nat, n: nat) returns (a: Action)
    requires Safe(s) && Active(s, tid) && forall t :: t in s.txs ==> t < n
    ensures Next(s, a).txs.Keys == s.txs.Keys && Left(Next(s, a).txs, n) < Left(s.txs, n)
  {
    hide Next;
    hide Blocked;
    hide SomeoneUsesId;
    hide Depth;
    hide Inv;
    hide AllApart;
    hide Run;
    hide TxFits;
    var u := SomeoneCanMove(s, tid);
    var id := FreshId(s);
    var st := Stamps(NO_TIME, NO_TIME, NO_ID, NO_ID, NO_ID);
    a := if Committing(s.txs[u]) then Commit(u, st, NO_TIME, NO_TIME, true) else Statement(u, id, NO_TIME);
    MovesDeeper(s, u, id, NO_TIME, st, NO_TIME, NO_TIME, true);
    OthersStay(s, a, u);
    LeftDrops(s.txs, u, Next(s, a).txs[u], n);
  }

  lemma {:induction false} EndsWithin(s: Sys, n: nat) returns (acts: seq<Action>)
    requires Safe(s) && forall t :: t in s.txs ==> t < n
    ensures Continue(s, acts).txs.Keys == s.txs.Keys && |acts| <= Left(s.txs, n)
    ensures forall t :: t in s.txs ==> Continue(s, acts).txs[t].Over()
    decreases Left(s.txs, n)
  {
    hide Safe;
    hide Next;
    hide Depth;
    if tid :| Active(s, tid) {
      var a := StepsOn(s, tid, n);
      NextKeeps(s, a);
      var rest := EndsWithin(Next(s, a), n);
      acts := [a] + rest;
      ContinueUnfolds(s, acts);
      assert acts[1..] == rest;
    } else {
      acts := [];
      forall t | t in s.txs ensures s.txs[t].Over() { assert !Active(s, t); }
    }
  }

  /**
   * There is no state, however transactions came to wait for each other, from which they cannot all be brought to their
   * end, in at most eight statements each.
   */
  lemma EveryoneEnds(s: Sys) returns (acts: seq<Action>)
    requires Safe(s)
    ensures Continue(s, acts).txs.Keys == s.txs.Keys && |acts| <= 8 * |s.txs.Keys|
    ensures forall t :: t in s.txs ==> Continue(s, acts).txs[t].Over()
  {
    hide Safe;
    hide Continue;
    var n := Above(s.txs.Keys);
    acts := EndsWithin(s, n);
    LeftBounded(s.txs, n);
    assert Below(s.txs.Keys, n) == s.txs.Keys;
  }

  /** So every interleaved run has a continuation after which nobody is in progress. */
  lemma EveryRunEnds(acts: seq<Action>) returns (more: seq<Action>)
    ensures forall t :: t in Execute(acts).txs ==> t in Execute(acts + more).txs && Execute(acts + more).txs[t].Over()
    ensures Execute(acts + more).txs.Keys == Execute(acts).txs.Keys && |more| <= 8 * |Execute(acts).txs.Keys|
  {
    hide Execute;
    hide Safe;
    hide Continue;
    more := EveryoneEnds(Execute(acts));
    ContinueIsExecute(acts, more);
  }
}
