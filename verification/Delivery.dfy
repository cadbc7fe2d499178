/**
 * What the relay guarantees about every event: accepted before it is marked, marked once, never lost, worked on by one
 * publisher.
 */
module Delivery {
  import opened Prelude
  import opened Ledger
  import opened Outbox

  function RunFrom(s: Relay, acts: seq<Action>): Relay {
    if acts == [] then s else Next(RunFrom(s, acts[..|acts| - 1]), acts[|acts| - 1])
  }

  // ---------- marking ----------

  /**
   * A row becomes published only by a publisher that holds its present token, and only after the broker
   * accepted that very event, as committed.
   */
  lemma PublishedWasAccepted(s: Relay, a: Action, id: Id)
    requires Safe(s) && id in Next(s, a).rows && Next(s, a).rows[id].publishedAt.Some?
    requires id in s.rows ==> s.rows[id].publishedAt == None
    ensures id in s.rows && a.Mark? && At(s, a.tid, Accepted) && s.tasks[a.tid].eventId == id &&
      Held(s.rows[id], s.tasks[a.tid].token)
    ensures s.rows[id].event in s.log && s.rows[id].event.meta.id == id && Next(s, a).rows[id].event == s.rows[id].event
    ensures s.tasks[a.tid].event == s.rows[id].event
  {
    assert a.Mark? && At(s, a.tid, Accepted);
    assert TaskSafe(s, s.tasks[a.tid]);
  }

  /** A publisher whose token the row no longer carries changes no row, whatever it does. */
  lemma LostTokenIsPowerless(s: Relay, tid: nat, a: Action)
    requires tid in s.tasks &&
      (s.tasks[tid].eventId in s.rows ==> !Held(s.rows[s.tasks[tid].eventId], s.tasks[tid].token))
    requires (a.Mark? && a.tid == tid) || (a.GiveUp? && a.tid == tid)
    ensures Next(s, a).rows == s.rows
  {
  }

  predicate Carries(s: Relay, id: Id, token: Id) { id in s.rows && Held(s.rows[id], token) }

  /** A token that was superseded, released or spent never comes back. */
  lemma StepStaysLost(s: Relay, a: Action, id: Id, token: Id)
    requires token in s.tokens && !Carries(s, id, token)
    ensures token in Next(s, a).tokens && !Carries(Next(s, a), id, token)
  {
    hide Delay;
  }

  lemma {:induction false} LostStaysLost(s: Relay, acts: seq<Action>, id: Id, token: Id)
    requires token in s.tokens && !Carries(s, id, token)
    ensures token in RunFrom(s, acts).tokens && !Carries(RunFrom(s, acts), id, token)
  {
    hide Next;
    hide Carries;
    if acts != [] {
      LostStaysLost(s, acts[..|acts| - 1], id, token);
      StepStaysLost(RunFrom(s, acts[..|acts| - 1]), acts[|acts| - 1], id, token);
    }
  }

  lemma RowStays(s: Relay, a: Action, id: Id)
    requires id in s.rows
    ensures id in Next(s, a).rows && Next(s, a).rows[id].event == s.rows[id].event
    ensures s.rows[id].publishedAt.Some? && s.rows[id].claim == None ==> Next(s, a).rows[id] == s.rows[id]
  {
    hide Delay;
  }

  /** Rows stay, with their event; a published row stays exactly as it was marked. */
  lemma {:induction false} RowsStay(s: Relay, acts: seq<Action>, id: Id)
    requires id in s.rows
    ensures id in RunFrom(s, acts).rows && RunFrom(s, acts).rows[id].event == s.rows[id].event
    ensures s.rows[id].publishedAt.Some? && s.rows[id].claim == None ==> RunFrom(s, acts).rows[id] == s.rows[id]
  {
    hide Next;
    if acts != [] {
      RowsStay(s, acts[..|acts| - 1], id);
      RowStays(RunFrom(s, acts[..|acts| - 1]), acts[|acts| - 1], id);
    }
  }

  // ---------- nothing is lost ----------

  /**
   * Whatever happened to an unpublished event, however many publishers crashed over it, once the longest
   * backoff and the longest lease have passed it can be claimed again.
   */
  lemma ClaimableAgain(acts: seq<Action>, longest: nat, id: Id, d: nat)
    requires id in Execute(acts, longest).rows && Execute(acts, longest).rows[id].publishedAt == None
    requires d > longest && d >= HOUR
    ensures var s := Next(Execute(acts, longest), Tick(d)); Free(s.rows[id], s.clock)
  {
    hide Execute;
    var s := Execute(acts, longest);
    assert RowSafe(s, id, s.rows[id]);
  }

  /** The broker's log holds committed events only, under their own ids. */
  lemma LogIsCommitted(acts: seq<Action>, longest: nat, e: Event)
    requires e in Execute(acts, longest).log
    ensures var s := Execute(acts, longest); e.meta.id in s.rows && s.rows[e.meta.id].event == e
  {
    hide Execute;
    hide RowsSafe;
    hide TasksSafe;
  }

  // ---------- one publisher at a time ----------

  /** How long a task may work: the claim call, the processing deadline, and the cleanup. */
  const CLAIM_CALL: Time := 5 * SECOND
  const CLEANUP: Time := 3 * SECOND

  function Deadline(t: Task, process: Time): Time { t.claimedAt + CLAIM_CALL + process + CLEANUP }

  predicate Live(s: Relay, tid: nat, process: Time) {
    tid in s.tasks && s.tasks[tid].stage != Ended && s.clock <= Deadline(s.tasks[tid], process)
  }

  /**
   * Workers that honour their deadlines, leases as Load allows them, and releases only after local jobs have stopped.
   */
  ghost predicate Punctual(s: Relay, a: Action, process: Time) {
    && (a.Take? ==> a.lease >= process + 10 * SECOND)
    && (a.Publish? || a.Mark? || a.GiveUp? ==> Live(s, a.tid, process))
    && (a.Release? ==> forall t :: Live(s, t, process) ==> s.tasks[t].owner != a.owner)
  }

  /** The row of live work is published, or still under that work's own lease, which outlasts it. */
  ghost predicate Owns(s: Relay, t: Task, process: Time) {
    t.eventId in s.rows && var row := s.rows[t.eventId];
    row.publishedAt.Some? ||
      (row.claim.Some? && row.claim.value.token == t.token && row.claim.value.owner == t.owner &&
        Deadline(t, process) < row.claim.value.until)
  }

  ghost predicate LiveOwn(s: Relay, process: Time) {
    forall t {:trigger Live(s, t, process)} :: Live(s, t, process) ==> Owns(s, s.tasks[t], process)
  }

  ghost predicate LiveUnique(s: Relay, process: Time) {
    forall t, u {:trigger Live(s, t, process), Live(s, u, process)} ::
      Live(s, t, process) && Live(s, u, process) && s.tasks[t].eventId == s.tasks[u].eventId ==> t == u
  }

  /** Apart from a new claim, no step brings a task to life. */
  lemma LiveWasLive(s: Relay, a: Action, process: Time, t: nat)
    requires !a.Take? && Live(Next(s, a), t, process)
    ensures Live(s, t, process) && Next(s, a).tasks[t] == s.tasks[t].(stage := Next(s, a).tasks[t].stage)
  {
    hide MarkRows;
    hide PostponeRows;
    hide ReleaseRows;
    hide Delay;
  }

  lemma StillOwns(s: Relay, a: Action, process: Time, t: nat)
    requires Safe(s) && LiveOwn(s, process) && LiveUnique(s, process) && Punctual(s, a, process)
    requires !a.Take? && Live(Next(s, a), t, process)
    ensures Owns(Next(s, a), Next(s, a).tasks[t], process)
  {
    hide Safe;
    hide Next;
    hide Punctual;
    LiveWasLive(s, a, process, t);
    assert Owns(s, s.tasks[t], process);
    OwnsOn(s, a, process, t);
  }

  /** Neither another live task's mark or delay, nor a release, touches the row of a live task. */
  lemma OwnsOn(s: Relay, a: Action, process: Time, t: nat)
    requires Live(s, t, process) && Owns(s, s.tasks[t], process)
    requires LiveUnique(s, process) && Punctual(s, a, process) && !a.Take? && Live(Next(s, a), t, process)
    ensures Owns(Next(s, a), Next(s, a).tasks[t], process)
  {
    hide Delay;
    if (a.Mark? || a.GiveUp?) && Live(s, a.tid, process) && a.tid != t {
      assert s.tasks[a.tid].eventId != s.tasks[t].eventId;
    }
    hide LiveUnique;
  }

  /** A row that can be claimed has no live task. */
  lemma FreeIsIdle(s: Relay, id: Id, t: nat, process: Time)
    requires LiveOwn(s, process) && id in s.rows && Free(s.rows[id], s.clock) && Live(s, t, process)
    ensures s.tasks[t].eventId != id
  {
    assert Owns(s, s.tasks[t], process);
  }

  lemma TakeIsPunctual(s: Relay, a: Action, process: Time)
    requires LiveOwn(s, process) && LiveUnique(s, process) && Punctual(s, a, process) && a.Take?
    ensures LiveOwn(Next(s, a), process) && LiveUnique(Next(s, a), process)
  {
    var s' := Next(s, a);
    if s' != s {
      forall t | Live(s, t, process)
        ensures Owns(s, s.tasks[t], process) && s.tasks[t].eventId != a.id
      {
        FreeIsIdle(s, a.id, t, process);
      }
      forall t | Live(s', t, process) ensures Owns(s', s'.tasks[t], process) {
        if t != a.tid { assert Live(s, t, process); }
      }
      forall t, u | Live(s', t, process) && Live(s', u, process) && s'.tasks[t].eventId == s'.tasks[u].eventId
        ensures t == u
      {
        if t != a.tid { assert Live(s, t, process); }
        if u != a.tid { assert Live(s, u, process); }
      }
    }
  }

  lemma StepIsPunctual(s: Relay, a: Action, process: Time)
    requires Safe(s) && LiveOwn(s, process) && LiveUnique(s, process) && Punctual(s, a, process)
    ensures LiveOwn(Next(s, a), process) && LiveUnique(Next(s, a), process)
  {
    if a.Take? {
      TakeIsPunctual(s, a, process);
    } else {
      var s' := Next(s, a);
      forall t | Live(s', t, process) ensures Owns(s', s'.tasks[t], process) { StillOwns(s, a, process, t); }
      forall t, u | Live(s', t, process) && Live(s', u, process) && s'.tasks[t].eventId == s'.tasks[u].eventId
        ensures t == u
      {
        LiveWasLive(s, a, process, t);
        LiveWasLive(s, a, process, u);
      }
    }
  }

  ghost predicate AllPunctual(acts: seq<Action>, longest: nat, process: Time) {
    forall i :: 0 <= i < |acts| ==> Punctual(Execute(acts[..i], longest), acts[i], process)
  }

  /**
   * Under Load's lease >= process + 10s, two publishers never hold live work on the same event, and work never outlives
   * its lease.
   */
  lemma {:induction false} OneLivePublisher(acts: seq<Action>, longest: nat, process: Time)
    requires AllPunctual(acts, longest, process)
    ensures LiveOwn(Execute(acts, longest), process) && LiveUnique(Execute(acts, longest), process)
  {
    if acts != [] {
      var n := |acts| - 1;
      forall i | 0 <= i < n ensures Punctual(Execute(acts[..n][..i], longest), acts[..n][i], process) {
        assert acts[..n][..i] == acts[..i];
      }
      OneLivePublisher(acts[..n], longest, process);
      assert Punctual(Execute(acts[..n], longest), acts[n], process);
      hide Safe;
      hide LiveOwn;
      hide LiveUnique;
      hide Punctual;
      hide AllPunctual;
      hide Next;
      StepIsPunctual(Execute(acts[..n], longest), acts[n], process);
    }
  }
}
