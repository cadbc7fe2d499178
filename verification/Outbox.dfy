/**
 * The outbox relay: publishers claim rows under a lease and a fresh token, hand events to the broker, and
 * mark or reschedule what they still hold (internal/adapters/postgres/work.go, internal/workers/engine.go).
 * Any number of publishers run at once, and may crash or lose an answer at any point.
 */
module Outbox {
  import opened Prelude
  import opened Ledger
  import Tables

  type Lease = Tables.Claim

  /** An outbox row: the event as committed, and the delivery columns. */
  datatype Row = Row(event: Event, occurredAt: Time, attempts: nat, nextAt: Time, claim: Option<Lease>,
    publishedAt: Option<Time>)

  predicate Held(row: Row, token: Id) {
    row.claim.Some? && row.claim.value.token == token && row.publishedAt == None
  }

  /** What ClaimOutbox may take. */
  predicate Free(row: Row, clock: Time) {
    row.publishedAt == None && row.nextAt <= clock && (row.claim.Some? ==> row.claim.value.until < clock)
  }

  function Marked(row: Row, clock: Time): Row { row.(publishedAt := Some(clock), claim := None) }

  function Postponed(row: Row, clock: Time, delay: Time): Row
    requires delay >= 0
  {
    row.(attempts := row.attempts + 1, nextAt := clock + Millis(delay), claim := None)
  }

  function Released(row: Row, owner: string): Row {
    if row.publishedAt == None && row.claim.Some? && row.claim.value.owner == owner then row.(claim := None) else row
  }

  // ---------- the system ----------

  /** How far publishOne has come: with the claim only, accepted by the broker, on its way to give up, or over. */
  datatype Stage = Holding | Accepted | GivingUp | Ended

  datatype Task = Task(eventId: Id, owner: string, token: Id, event: Event, attempts: nat, claimedAt: Time,
    stage: Stage)

  /**
   * Rows, publisher tasks, what the broker accepted in order, the server clock, every token ever issued, and the
   * longest lease in use.
   */
  datatype Relay = Relay(rows: map<Id, Row>, tasks: map<nat, Task>, log: seq<Event>, clock: Time, tokens: set<Id>,
    longest: Time)

  datatype Action =
    | Arrive(e: Event)
    | Tick(d: nat)
    | Take(id: Id, owner: string, token: Id, lease: Time, tid: nat, delivered: bool)
    | Publish(tid: nat, accepted: bool, reported: bool)
    | Mark(tid: nat, executed: bool, reported: bool)
    | GiveUp(tid: nat, executed: bool, draw: Time)
    | Crash(tid: nat)
    | Release(owner: string)

  // ---------- backoff ----------

  /** The delay before jitter. */
  function Ceiling(attempt: int, max: Time): (r: Time)
    requires max >= 0
    ensures 0 <= r <= max
  {
    var n: nat := if attempt < 0 then 0 else if attempt > 20 then 20 else attempt;
    if Pow2(n) * SECOND > max then max else Pow2(n) * SECOND
  }

  /** Half of the ceiling, plus a random draw from the other half. */
  function Backoff(attempt: int, max: Time, draw: Time): (r: Time)
    requires max >= 0 && 0 <= draw <= Ceiling(attempt, max) / 2
    ensures var times := if attempt < 0 then 0 else Min(attempt, 20);
      var step := Min(Pow2(times) * SECOND, max);
      r == step / 2 + draw && step / 2 <= r <= step
  {
    Ceiling(attempt, max) / 2 + draw
  }

  /** Any draw, brought into range. */
  function Delay(attempt: int, draw: Time): (r: Time)
    ensures var times := if attempt < 0 then 0 else Min(attempt, 20);
      var step := Min(Pow2(times) * SECOND, HOUR);
      0 <= step / 2 <= r <= step <= HOUR
  {
    var half := Ceiling(attempt, HOUR) / 2;
    Backoff(attempt, HOUR, if draw < 0 then 0 else if draw > half then half else draw)
  }

  // ---------- steps ----------

  predicate At(s: Relay, tid: nat, stage: Stage) { tid in s.tasks && s.tasks[tid].stage == stage }

  function Staged(s: Relay, tid: nat, stage: Stage): map<nat, Task>
    requires tid in s.tasks
  {
    s.tasks[tid := s.tasks[tid].(stage := stage)]
  }

  /** MarkPublished: only the row's present token marks it. The lease itself is not looked at. */
  function MarkRows(rows: map<Id, Row>, id: Id, token: Id, clock: Time): map<Id, Row> {
    if id in rows && Held(rows[id], token) then rows[id := Marked(rows[id], clock)] else rows
  }

  /** RetryOutbox. */
  function PostponeRows(rows: map<Id, Row>, id: Id, token: Id, clock: Time, delay: Time): map<Id, Row>
    requires delay >= 0
  {
    if id in rows && Held(rows[id], token) then rows[id := Postponed(rows[id], clock, delay)] else rows
  }

  function ReleaseRows(rows: map<Id, Row>, owner: string): map<Id, Row> {
    map id | id in rows :: Released(rows[id], owner)
  }

  function Next(s: Relay, a: Action): Relay {
    match a
    case Arrive(e) =>
      if e.meta.id in s.rows then s else s.(rows := s.rows[e.meta.id := Row(e, s.clock, 0, s.clock, None, None)])
    case Tick(d) => s.(clock := s.clock + d)
    case Take(id, owner, token, lease, tid, delivered) =>
      if || id !in s.rows || !Free(s.rows[id], s.clock) || token in s.tokens
         || lease <= 0 || lease > s.longest || owner == "" || tid in s.tasks then s
      else
        var row := s.rows[id];
        // The claim may be lost on its way back: the row stays claimed, and nobody works on it.
        s.(rows := s.rows[id := row.(claim := Some(Tables.Claim(owner, token, s.clock + Millis(lease))))],
           tokens := s.tokens + {token},
           tasks :=
             if delivered then s.tasks[tid := Task(id, owner, token, row.event, row.attempts, s.clock, Holding)]
             else s.tasks)
    case Publish(tid, accepted, reported) =>
      if !At(s, tid, Holding) then s
      else
        s.(log := if accepted then s.log + [s.tasks[tid].event] else s.log,
           tasks := Staged(s, tid, if accepted && reported then Accepted else GivingUp))
    case Mark(tid, executed, reported) =>
      if !At(s, tid, Accepted) then s
      else
        var t := s.tasks[tid];
        var held := t.eventId in s.rows && Held(s.rows[t.eventId], t.token);
        s.(rows := if executed then MarkRows(s.rows, t.eventId, t.token, s.clock) else s.rows,
           tasks := Staged(s, tid, if executed && reported && held then Ended else GivingUp))
    case GiveUp(tid, executed, draw) =>
      if !At(s, tid, GivingUp) then s
      else
        var t := s.tasks[tid];
        s.(rows := if executed then PostponeRows(s.rows, t.eventId, t.token, s.clock, Delay(t.attempts, draw))
             else s.rows,
           tasks := Staged(s, tid, Ended))
    case Crash(tid) => if tid in s.tasks then s.(tasks := Staged(s, tid, Ended)) else s
    case Release(owner) => s.(rows := ReleaseRows(s.rows, owner))
  }

  // ---------- what always holds ----------

  ghost predicate RowSafe(s: Relay, id: Id, row: Row) {
    && row.event.meta.id == id
    && (row.publishedAt.Some? ==> row.event in s.log && row.claim == None)
    && (row.claim.Some? ==> row.claim.value.token in s.tokens)
    && (row.publishedAt == None ==>
      row.nextAt <= s.clock + HOUR && (row.claim.Some? ==> row.claim.value.until <= s.clock + s.longest))
  }

  ghost predicate TaskSafe(s: Relay, t: Task) {
    && t.token in s.tokens && t.eventId in s.rows && t.event == s.rows[t.eventId].event
    && (t.stage == Accepted ==> t.event in s.log)
  }

  /** Two rows never share a token, and a task's token is on its own row if anywhere. */
  ghost predicate TokensApart(rows: map<Id, Row>) {
    forall x, y :: x in rows && y in rows && x != y && rows[x].claim.Some? && rows[y].claim.Some? ==>
      rows[x].claim.value.token != rows[y].claim.value.token
  }

  ghost predicate TokensOwn(rows: map<Id, Row>, tasks: map<nat, Task>) {
    forall x, t :: x in rows && t in tasks && rows[x].claim.Some? && rows[x].claim.value.token == tasks[t].token ==>
      x == tasks[t].eventId
  }

  /** The broker only ever accepted committed events, as committed. */
  ghost predicate LogCommitted(s: Relay) {
    forall e :: e in s.log ==> e.meta.id in s.rows && s.rows[e.meta.id].event == e
  }

  ghost predicate RowsSafe(s: Relay) {
    forall id {:trigger s.rows[id]} :: id in s.rows ==> RowSafe(s, id, s.rows[id])
  }

  ghost predicate TasksSafe(s: Relay) {
    forall t {:trigger s.tasks[t]} :: t in s.tasks ==> TaskSafe(s, s.tasks[t])
  }

  ghost predicate Safe(s: Relay) {
    s.longest >= 0 && RowsSafe(s) && TasksSafe(s) && TokensApart(s.rows) && TokensOwn(s.rows, s.tasks) &&
      LogCommitted(s)
  }

  /** Giving a row up keeps everything about it but its claim. */
  predicate Yields(before: Row, after: Row) {
    after.event == before.event && (after.claim == before.claim || after.claim == None)
  }

  lemma YieldKeepsTokens(s: Relay, rows: map<Id, Row>)
    requires rows.Keys == s.rows.Keys && forall id :: id in rows ==> Yields(s.rows[id], rows[id])
    ensures TokensApart(s.rows) ==> TokensApart(rows)
    ensures TokensOwn(s.rows, s.tasks) ==> TokensOwn(rows, s.tasks)
    ensures TasksSafe(s) ==> TasksSafe(s.(rows := rows))
    ensures LogCommitted(s) ==> LogCommitted(s.(rows := rows))
  {
    forall id | id in rows ensures Yields(s.rows[id], rows[id]) {}
  }

  lemma StageKeeps(s: Relay, tid: nat, stage: Stage)
    requires Safe(s) && tid in s.tasks && (stage == Accepted ==> s.tasks[tid].event in s.log)
    ensures Safe(s.(tasks := Staged(s, tid, stage)))
  {
  }

  lemma YieldSafe(s: Relay, rows: map<Id, Row>)
    requires Safe(s) && rows.Keys == s.rows.Keys && forall id :: id in rows ==> Yields(s.rows[id], rows[id])
    requires RowsSafe(s.(rows := rows))
    ensures Safe(s.(rows := rows))
  {
    hide TasksSafe;
    hide TokensApart;
    hide TokensOwn;
    hide LogCommitted;
    hide RowsSafe;
    hide Yields;
    YieldKeepsTokens(s, rows);
  }

  lemma ArriveSafe(s: Relay, e: Event)
    requires Safe(s)
    ensures Safe(Next(s, Arrive(e)))
  {
    var s' := Next(s, Arrive(e));
    ArriveKeepsRows(s, e);
    ArriveKeepsTokens(s, e);
    hide RowsSafe;
    hide TokensApart;
    hide TokensOwn;
    assert TasksSafe(s') by {
      forall t | t in s.tasks ensures TaskSafe(s', s.tasks[t]) { assert TaskSafe(s, s.tasks[t]); }
    }
  }

  lemma ArriveKeepsRows(s: Relay, e: Event)
    requires RowsSafe(s)
    ensures RowsSafe(Next(s, Arrive(e)))
  {
    forall id | id in s.rows ensures RowSafe(s, id, s.rows[id]) {}
  }

  lemma ArriveKeepsTokens(s: Relay, e: Event)
    requires TokensApart(s.rows) && TokensOwn(s.rows, s.tasks)
    ensures TokensApart(Next(s, Arrive(e)).rows) && TokensOwn(Next(s, Arrive(e)).rows, Next(s, Arrive(e)).tasks)
  {
  }

  lemma TickSafe(s: Relay, d: nat)
    requires Safe(s)
    ensures Safe(Next(s, Tick(d)))
  {
    hide TokensApart;
    hide TokensOwn;
    var s' := Next(s, Tick(d));
    assert TasksSafe(s') by {
      forall t | t in s.tasks ensures TaskSafe(s', s.tasks[t]) { assert TaskSafe(s, s.tasks[t]); }
    }
  }

  lemma TakeSafe(s: Relay, a: Action)
    requires Safe(s) && a.Take?
    ensures Safe(Next(s, a))
  {
    hide Free;
    var s' := Next(s, a);
    if s' != s {
      TakenRows(s, a);
      TakenTokens(s, a);
    }
  }

  lemma TakenRows(s: Relay, a: Action)
    requires Safe(s) && a.Take? && Next(s, a) != s
    ensures RowsSafe(Next(s, a)) && LogCommitted(Next(s, a)) && TasksSafe(Next(s, a))
  {
    hide TokensApart;
    hide TokensOwn;
  }

  lemma TakenTokens(s: Relay, a: Action)
    requires Safe(s) && a.Take? && Next(s, a) != s
    ensures TokensApart(Next(s, a).rows) && TokensOwn(Next(s, a).rows, Next(s, a).tasks)
  {
    hide LogCommitted;
    hide Free;
    forall id | id in s.rows ensures RowSafe(s, id, s.rows[id]) {}
    forall t | t in s.tasks ensures TaskSafe(s, s.tasks[t]) {}
  }

  lemma PublishSafe(s: Relay, a: Action)
    requires Safe(s) && a.Publish?
    ensures Safe(Next(s, a))
  {
    if At(s, a.tid, Holding) && a.accepted {
      LoggedSafe(s, s.tasks[a.tid].event);
      StageKeeps(s.(log := s.log + [s.tasks[a.tid].event]), a.tid, if a.reported then Accepted else GivingUp);
    } else if At(s, a.tid, Holding) {
      StageKeeps(s, a.tid, GivingUp);
    }
  }

  lemma LoggedSafe(s: Relay, e: Event)
    requires Safe(s) && e.meta.id in s.rows && s.rows[e.meta.id].event == e
    ensures Safe(s.(log := s.log + [e]))
  {
  }

  lemma MarkSafe(s: Relay, a: Action)
    requires Safe(s) && a.Mark?
    ensures Safe(Next(s, a))
  {
    if At(s, a.tid, Accepted) {
      var t := s.tasks[a.tid];
      var rows := if a.executed then MarkRows(s.rows, t.eventId, t.token, s.clock) else s.rows;
      MarkedRows(s, a.tid, rows);
      YieldSafe(s, rows);
      StageKeeps(s.(rows := rows), a.tid, Next(s, a).tasks[a.tid].stage);
    }
  }

  lemma MarkedRows(s: Relay, tid: nat, rows: map<Id, Row>)
    requires Safe(s) && At(s, tid, Accepted)
    requires rows == s.rows || rows == MarkRows(s.rows, s.tasks[tid].eventId, s.tasks[tid].token, s.clock)
    ensures rows.Keys == s.rows.Keys && RowsSafe(s.(rows := rows)) && forall id :: id in rows ==>
      Yields(s.rows[id], rows[id])
  {
    hide TokensApart;
    hide TokensOwn;
    hide LogCommitted;
    assert TaskSafe(s, s.tasks[tid]);
    forall id | id in s.rows ensures RowSafe(s, id, s.rows[id]) {}
  }

  lemma GiveUpSafe(s: Relay, a: Action)
    requires Safe(s) && a.GiveUp?
    ensures Safe(Next(s, a))
  {
    hide Delay;
    if At(s, a.tid, GivingUp) {
      var t := s.tasks[a.tid];
      var rows := if a.executed then PostponeRows(s.rows, t.eventId, t.token, s.clock, Delay(t.attempts, a.draw))
        else s.rows;
      PostponedRows(s, t.eventId, t.token, Delay(t.attempts, a.draw));
      NothingYields(s);
      YieldSafe(s, rows);
      StageKeeps(s.(rows := rows), a.tid, Ended);
    }
  }

  lemma NothingYields(s: Relay)
    ensures forall id :: id in s.rows ==> Yields(s.rows[id], s.rows[id])
  {
  }

  lemma PostponedRows(s: Relay, id: Id, token: Id, delay: Time)
    requires Safe(s) && 0 <= delay <= HOUR
    ensures var rows := PostponeRows(s.rows, id, token, s.clock, delay);
      rows.Keys == s.rows.Keys && RowsSafe(s.(rows := rows)) && forall id :: id in rows ==> Yields(s.rows[id], rows[id])
  {
    hide TokensApart;
    hide TokensOwn;
    hide LogCommitted;
    hide TasksSafe;
    forall id | id in s.rows ensures RowSafe(s, id, s.rows[id]) {}
  }

  lemma ReleaseSafe(s: Relay, owner: string)
    requires Safe(s)
    ensures Safe(Next(s, Release(owner)))
  {
    hide TokensApart;
    hide TokensOwn;
    hide LogCommitted;
    hide TasksSafe;
    forall id | id in s.rows ensures RowSafe(s, id, s.rows[id]) {}
    YieldSafe(s, ReleaseRows(s.rows, owner));
  }

  lemma StepSafe(s: Relay, a: Action)
    requires Safe(s)
    ensures Safe(Next(s, a))
  {
    match a
    case Arrive(e) => ArriveSafe(s, e);
    case Tick(d) => TickSafe(s, d);
    case Take(id, owner, token, lease, tid, delivered) => TakeSafe(s, a);
    case Publish(tid, accepted, reported) => PublishSafe(s, a);
    case Mark(tid, executed, reported) => MarkSafe(s, a);
    case GiveUp(tid, executed, draw) => GiveUpSafe(s, a);
    case Crash(tid) => if tid in s.tasks { StageKeeps(s, tid, Ended); }
    case Release(owner) => ReleaseSafe(s, owner);
  }

  /** Any run of the relay, from an empty outbox, with leases of at most `longest`. */
  ghost function Execute(acts: seq<Action>, longest: nat): (s: Relay)
    ensures Safe(s) && s.longest == longest
  {
    if acts == [] then Relay(map[], map[], [], 0, {}, longest)
    else
      var before := Execute(acts[..|acts| - 1], longest);
      StepSafe(before, acts[|acts| - 1]);
      Next(before, acts[|acts| - 1])
  }
}
