/**
 * The outbox table and one publication, statement by statement (internal/adapters/postgres/work.go,
 * internal/workers/engine.go).
 */
module Publisher {
  import opened Prelude
  import opened Ledger
  import opened Selection
  import opened Outbox
  import Store
  import Tables

  /** What a claim hands to a publisher. */
  datatype Record = Record(eventId: Id, token: Id, event: Event, attempts: nat)

  /** The rows that a claim may take, by its order; rows locked by others are skipped. */
  function FreeKeys(rows: map<Id, Row>, clock: Time, locked: set<Id>): map<Id, Key> {
    map id | id in rows && id !in locked && Free(rows[id], clock) :: Key(rows[id].nextAt, rows[id].occurredAt)
  }

  /** The row is not published, its time has come, and no claim on it is in force. */
  predicate IsDue(row: Row, clock: Time) {
    row.publishedAt == None && row.nextAt <= clock && (row.claim.Some? ==> row.claim.value.until < clock)
  }

  /** The order in which due rows are taken: by the time of the attempt, then of the commit, then by id. */
  predicate DueBefore(rows: map<Id, Row>, x: Id, y: Id)
    requires x in rows && y in rows
  {
    var r, r' := rows[x], rows[y];
    || r.nextAt < r'.nextAt
    || (r.nextAt == r'.nextAt && r.occurredAt < r'.occurredAt)
    || (r.nextAt == r'.nextAt && r.occurredAt == r'.occurredAt && x < y)
  }

  /**
   * What a claim chooses: rows that are due and not locked, the first ones first; a row that is due and is left comes
   * after every row chosen, and none is left if the limit is not reached.
   */
  lemma ChosenAreDue(rows: map<Id, Row>, clock: Time, locked: set<Id>, limit: nat, ids: seq<Id>)
    requires Chosen(FreeKeys(rows, clock, locked), limit, ids)
    ensures |ids| <= limit
    ensures forall i :: 0 <= i < |ids| ==> ids[i] in rows && ids[i] !in locked && IsDue(rows[ids[i]], clock)
    ensures forall i, j :: 0 <= i < j < |ids| ==> DueBefore(rows, ids[i], ids[j])
    ensures forall id, i ::
      id in rows && id !in locked && IsDue(rows[id], clock) && id !in ids && 0 <= i < |ids| ==>
        DueBefore(rows, ids[i], id)
    ensures |ids| < limit ==> forall id :: id in rows && id !in locked && IsDue(rows[id], clock) ==> id in ids
  {
    var keys := FreeKeys(rows, clock, locked);
    if |ids| < limit {
      ChosenAll(keys, limit, ids);
    }
    forall i | 0 <= i < |ids| ensures ids[i] in keys {}
    forall i, j | 0 <= i < j < |ids| ensures DueBefore(rows, ids[i], ids[j]) {
      assert Before(keys, ids[i], ids[j]);
    }
  }

  /** The row is claimed for the owner under the record's token; the record shows it as it was. */
  predicate ClaimedOver(before: Row, after: Row, record: Record, owner: string, until: Time) {
    && record.event == before.event && record.attempts == before.attempts
    && after == before.(claim := Some(Tables.Claim(owner, record.token, until)))
  }

  /** The records claim the given rows, in order, each under its own token. */
  ghost predicate Claims(before: map<Id, Row>, after: map<Id, Row>, records: seq<Record>, owner: string,
          tokens: seq<Id>, until: Time) {
    && |records| <= |tokens| && after.Keys == before.Keys
    && (forall i :: 0 <= i < |records| ==>
          && records[i].eventId in before && records[i].token == tokens[i]
          && ClaimedOver(before[records[i].eventId], after[records[i].eventId], records[i], owner, until))
    && (forall id :: id in before && (forall i :: 0 <= i < |records| ==> records[i].eventId != id) ==>
      after[id] == before[id])
  }

  /** The row is unpublished and under this very claim. */
  predicate Carries(row: Row, token: Id) {
    row.publishedAt == None && row.claim.Some? && row.claim.value.token == token
  }

  function EventIds(records: seq<Record>): (ids: seq<Id>)
    ensures |ids| == |records| && forall i :: 0 <= i < |ids| ==> ids[i] == records[i].eventId
  {
    seq(|records|, i requires 0 <= i < |records| => records[i].eventId)
  }

  class OutboxTable {
    var rows: map<Id, Row>

    /** The first free rows, at most `limit`, are claimed until the lease ends; every other row is left alone. */
    method ClaimOutbox(owner: string, limit: int, lease: Time, clock: Time, tokens: seq<Id>, locked: set<Id>)
      returns (r: Result<seq<Record>>)
      requires |tokens| >= limit
      modifies this
      ensures limit < 1 || limit > Store.MAX_BATCH || lease <= 0 || owner == "" ==>
        r == Fail(INVALID_INPUT) && rows == old(rows)
      ensures 1 <= limit <= Store.MAX_BATCH && lease > 0 && owner != "" ==>
        && r.Ok? && Chosen(FreeKeys(old(rows), clock, locked), limit, EventIds(r.value))
        && Claims(old(rows), rows, r.value, owner, tokens, clock + Millis(lease))
    {
      if limit < 1 || limit > Store.MAX_BATCH || lease <= 0 || owner == "" {
        return Fail(INVALID_INPUT);
      }
      hide Chosen;
      hide Claims;
      hide Free;
      var ids := Select(FreeKeys(rows, clock, locked), limit);
      ChosenDistinct(FreeKeys(rows, clock, locked), limit, ids);
      var records := ClaimRows(ids, owner, tokens, clock + Millis(lease));
      assert EventIds(records) == ids;
      return Ok(records);
    }

    method ClaimRows(ids: seq<Id>, owner: string, tokens: seq<Id>, until: Time) returns (records: seq<Record>)
      requires |ids| <= |tokens| && forall i :: 0 <= i < |ids| ==> ids[i] in rows
      requires forall i, j :: 0 <= i < j < |ids| ==> ids[i] != ids[j]
      modifies this
      ensures |records| == |ids| && forall i :: 0 <= i < |ids| ==> records[i].eventId == ids[i]
      ensures Claims(old(rows), rows, records, owner, tokens, until)
    {
      records := [];
      while |records| < |ids|
        invariant |records| <= |ids| && rows.Keys == old(rows).Keys
        invariant forall i :: 0 <= i < |records| ==>
          records[i].eventId == ids[i] && records[i].token == tokens[i] &&
            ClaimedOver(old(rows)[ids[i]], rows[ids[i]], records[i], owner, until)
        invariant forall id :: id in rows && id !in ids[..|records|] ==> rows[id] == old(rows)[id]
      {
        var n := |records|;
        var row := rows[ids[n]];
        rows := rows[ids[n] := row.(claim := Some(Tables.Claim(owner, tokens[n], until)))];
        records := records + [Record(ids[n], tokens[n], row.event, row.attempts)];
        assert ids[..n + 1] == ids[..n] + [ids[n]];
      }
    }

    method MarkPublished(id: Id, token: Id, clock: Time) returns (e: Code)
      modifies this
      ensures rows == MarkRows(old(rows), id, token, clock)
      ensures e == if id in old(rows) && Carries(old(rows)[id], token) then NoCode else CLAIM_LOST
      ensures rows == if e != NoCode then old(rows)
        else old(rows)[id := old(rows)[id].(publishedAt := Some(clock), claim := None)]
    {
      if id !in rows || rows[id].claim == None || rows[id].claim.value.token != token || rows[id].publishedAt.Some? {
        return CLAIM_LOST;
      }
      rows := rows[id := rows[id].(publishedAt := Some(clock), claim := None)];
      return NoCode;
    }

    method RetryOutbox(id: Id, token: Id, delay: Time, clock: Time) returns (e: Code)
      requires delay >= 0
      modifies this
      ensures rows == PostponeRows(old(rows), id, token, clock, delay)
      ensures e == if id in old(rows) && Carries(old(rows)[id], token) then NoCode else CLAIM_LOST
      ensures rows == if e != NoCode then old(rows)
        else var row := old(rows)[id];
          old(rows)[id := row.(attempts := row.attempts + 1, nextAt := clock + Millis(delay), claim := None)]
    {
      if id !in rows || rows[id].claim == None || rows[id].claim.value.token != token || rows[id].publishedAt.Some? {
        return CLAIM_LOST;
      }
      var row := rows[id];
      rows := rows[id := row.(attempts := row.attempts + 1, nextAt := clock + Millis(delay), claim := None)];
      return NoCode;
    }

    method ReleaseClaims(owner: string)
      modifies this
      ensures rows == ReleaseRows(old(rows), owner)
      ensures rows.Keys == old(rows).Keys
      ensures forall id :: id in rows ==> var row := old(rows)[id];
        rows[id] ==
          if row.publishedAt == None && row.claim.Some? && row.claim.value.owner == owner then row.(claim := None)
          else row
    {
      var rest := rows.Keys;
      while rest != {}
        invariant rest <= rows.Keys == old(rows).Keys
        invariant forall id :: id in rows ==>
          rows[id] == if id in rest then old(rows)[id] else Released(old(rows)[id], owner)
      {
        var id :| id in rest;
        if rows[id].publishedAt == None && rows[id].claim.Some? && rows[id].claim.value.owner == owner {
          rows := rows[id := rows[id].(claim := None)];
        }
        rest := rest - {id};
      }
    }
  }

  class Broker {
    var log: seq<Event>

    /** The broker may accept an event and still report an error, but never the other way round. */
    method Publish(e: Event, accepted: bool, reported: bool) returns (ok: bool)
      modifies this
      ensures log == if accepted then old(log) + [e] else old(log)
      ensures ok == (accepted && reported)
    {
      if accepted {
        log := log + [e];
      }
      return accepted && reported;
    }
  }

  /** What the network and the clock do to one publication. */
  datatype Weather = Weather(accepted: bool, reported: bool, markExecuted: bool, markReported: bool, markAt: Time,
    retryExecuted: bool, retryAt: Time, draw: Time)

  /** The same publication as steps of the relay. */
  function Steps(s: Relay, tid: nat, x: Weather): Relay
    requires s.clock <= x.markAt <= x.retryAt
  {
    var sent := Next(s, Action.Publish(tid, x.accepted, x.reported));
    var marked := Next(Next(sent, Tick(x.markAt - s.clock)), Mark(tid, x.markExecuted, x.markReported));
    Next(Next(marked, Tick(x.retryAt - x.markAt)), GiveUp(tid, x.retryExecuted, x.draw))
  }

  predicate MayMark(rows: map<Id, Row>, id: Id, token: Id) { id in rows && Carries(rows[id], token) }

  /** The rows after the mark, if there was one. */
  function AfterMark(s: Relay, tid: nat, x: Weather): map<Id, Row>
    requires tid in s.tasks
  {
    var t := s.tasks[tid];
    if x.accepted && x.reported && x.markExecuted then MarkRows(s.rows, t.eventId, t.token, x.markAt) else s.rows
  }

  /** What the three steps come to. */
  lemma StepsAre(s: Relay, tid: nat, x: Weather)
    requires s.clock <= x.markAt <= x.retryAt && At(s, tid, Holding)
    ensures var t := s.tasks[tid];
      var done := x.accepted && x.reported && x.markExecuted && x.markReported && MayMark(s.rows, t.eventId, t.token);
      && Steps(s, tid, x).log == (if x.accepted then s.log + [t.event] else s.log) && At(Steps(s, tid, x), tid, Ended)
      && var marked := AfterMark(s, tid, x);
      Steps(s, tid, x).rows ==
        if !done && x.retryExecuted then PostponeRows(marked, t.eventId, t.token, x.retryAt, Delay(t.attempts, x.draw))
        else marked
  {
    hide Delay;
    hide PostponeRows;
    var sent := Next(s, Action.Publish(tid, x.accepted, x.reported));
    var ticked := Next(sent, Tick(x.markAt - s.clock));
    assert ticked.tasks[tid].token == s.tasks[tid].token && ticked.rows == s.rows && ticked.clock == x.markAt;
    var marked := Next(ticked, Mark(tid, x.markExecuted, x.markReported));
    assert marked.rows == AfterMark(s, tid, x);
  }

  /**
   * publishOne: publish, then mark; if either did not report success, reschedule. It reports progress exactly
   * when the event was accepted and this publisher's own token marked it.
   */
  method PublishOne(table: OutboxTable, broker: Broker, record: Record, x: Weather, ghost s: Relay, ghost tid: nat)
    returns (done: bool)
    requires s.clock <= x.markAt <= x.retryAt
    requires s.rows == table.rows && s.log == broker.log && At(s, tid, Holding)
    requires record == Record(s.tasks[tid].eventId, s.tasks[tid].token, s.tasks[tid].event, s.tasks[tid].attempts)
    modifies table, broker
    ensures table.rows == Steps(s, tid, x).rows && broker.log == Steps(s, tid, x).log &&
      At(Steps(s, tid, x), tid, Ended)
    ensures done ==
      (x.accepted && x.reported && x.markExecuted && x.markReported &&
        MayMark(old(table.rows), record.eventId, record.token))
    ensures done ==>
      record.eventId in table.rows && table.rows[record.eventId].publishedAt.Some? && record.event in broker.log
  {
    hide Delay;
    hide Steps;
    StepsAre(s, tid, x);
    var ok := broker.Publish(record.event, x.accepted, x.reported);
    if ok {
      var e := UNAVAILABLE;
      if x.markExecuted {
        e := table.MarkPublished(record.eventId, record.token, x.markAt);
      }
      if x.markReported && e == NoCode {
        return true;
      }
    }
    if x.retryExecuted {
      var _ := table.RetryOutbox(record.eventId, record.token, Delay(record.attempts, x.draw), x.retryAt);
    }
    return false;
  }
}
