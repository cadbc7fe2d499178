/**
 * Repetitions of a command in interleaved runs, when every queue message carries the hash of its command
 * (internal/workers/engine.go, internal/adapters/postgres/process.go).
 */
module Repetitions {
  import opened Prelude
  import opened Wager
  import opened Tables
  import opened Reachable
  import opened Runs
  import opened Growth
  import opened Frozen
  import opened Messages
  import opened Interleaving
  import opened Commits
  import opened Concurrency
  import opened Guarantees

  /** The queue's decoder hashes the command that it hands over. */
  ghost predicate SealedBegins(acts: seq<Action>) {
    forall i :: 0 <= i < |acts| && acts[i].Begin? ==> Sealed(acts[i].raw, acts[i].inbox)
  }

  predicate SealedJob(job: Job) {
    job.Submit? ==> Sealed(job.raw, job.inbox)
  }

  ghost predicate SealedSys(s: Sys) {
    AllSealed(s.history) && forall t :: t in s.txs ==> SealedJob(s.txs[t].job)
  }

  /** A transaction keeps its job. */
  lemma JobStays(s: Sys, a: Action, t: nat)
    requires Safe(s) && t in Next(s, a).txs
    ensures t in s.txs ==> Next(s, a).txs[t].job == s.txs[t].job
    ensures t !in s.txs && Next(s, a).txs[t].job.Submit? ==>
      a.Begin? && Next(s, a).txs[t].job.raw == a.raw && Next(s, a).txs[t].job.inbox == a.inbox
  {
    hide Inv;
    hide AllFit;
    hide AllApart;
    hide Run;
    hide Step;
    hide Effects;
    hide NextPhase;
    hide TxFits;
    hide Blocked;
    hide NormalizeCommand;
    hide Serial;
  }

  lemma NextSealed(s: Sys, a: Action)
    requires Safe(s) && SealedSys(s) && (a.Begin? ==> Sealed(a.raw, a.inbox))
    ensures SealedSys(Next(s, a))
  {
    hide Safe;
    hide Next;
    hide Step;
    hide Sealed;
    var s' := Next(s, a);
    HistoryIsCommitOrder(s, a);
    forall t | t in s'.txs ensures SealedJob(s'.txs[t].job) { JobStays(s, a, t); }
    forall i | 0 <= i < |s'.history| ensures SealedOp(s'.history[i]) {
      if i < |s.history| {
        assert s'.history[i] == s.history[i];
      } else if a.Commit? {
        assert SealedJob(s.txs[a.tid].job);
      }
    }
  }

  lemma {:induction false} ExecuteSealed(acts: seq<Action>)
    requires SealedBegins(acts)
    ensures SealedSys(Execute(acts))
  {
    if acts != [] {
      var front, a := acts[..|acts| - 1], acts[|acts| - 1];
      ExecuteUnfolds(acts);
      hide Execute;
      hide Safe;
      hide Next;
      hide SealedSys;
      hide Sealed;
      ExecuteSealed(front);
      NextSealed(Execute(front), a);
    }
  }

  lemma RepeatIsNamed(s: Sys, job: Job, reply: Reply, id: Id)
    requires Shape(s.db) && job.Submit? && AnswerFits(s.db, job, reply)
    requires id in s.db.wagers && s.db.wagers[id].d.req.kind != OPENING && Repeats(job.cmd, s.db.wagers[id].d)
    requires job.inbox == None || (AllDelivered(s.db) && Sealed(job.cmd, job.inbox))
    ensures Names(s.db, job, id)
  {
    hide PayloadHashOf;
    hide ExternalIndex;
    hide InboxClosed;
    hide ReserveInbox;
    hide AllDelivered;
    if job.inbox == None {
      assert KeyOf(s.db.wagers[id].d.req) in s.db.byKey;
    } else {
      MessageFindsOwn(s.db, job.cmd, job.inbox, reply.transactionId);
      RepeatsOnce(s.db, job.cmd, reply.transactionId, id);
    }
  }

  lemma JobIsNormal(acts: seq<Action>, tid: nat)
    requires tid in Execute(acts).txs && Execute(acts).txs[tid].job.Submit?
    ensures var job := Execute(acts).txs[tid].job; NormalizeCommand(job.raw) == Ok(job.cmd)
    ensures Shape(Execute(acts).db) && Execute(acts).db == Run(Execute(acts).history)
  {
    hide Execute;
    hide AllGood;
    hide AllApart;
    hide Run;
    hide NormalizeCommand;
    hide PhaseFits;
    hide Placed;
    hide KeyIndex;
    hide ExternalIndex;
    hide InboxClosed;
    assert TxFits(Execute(acts).db, Execute(acts).txs[tid]);
  }

  /**
   * Once a wager is terminal, every repetition of its command that is begun afterwards and answered gets the frozen
   * result, over HTTP or under whatever message, new or old, as long as messages carry the hash of their command.
   */
  lemma RepeatsAreFrozen(acts: seq<Action>, more: seq<Action>, tid: nat, id: Id, reply: Reply)
    requires id in Execute(acts).db.wagers && Execute(acts).db.wagers[id].d.status.Terminal()
    requires Execute(acts).db.wagers[id].d.req.kind != OPENING && tid !in Execute(acts).txs
    requires tid in Execute(acts + more).txs && Execute(acts + more).txs[tid].phase == Answered(reply)
    requires var job := Execute(acts + more).txs[tid].job;
      && job.Submit? && Repeats(job.cmd, Execute(acts).db.wagers[id].d)
      && (job.inbox == None || SealedBegins(acts + more))
    ensures reply == FrozenReply(Execute(acts).db.wagers[id].d)
  {
    hide Execute;
    hide Safe;
    hide Run;
    hide Shape;
    hide NormalizeCommand;
    hide PayloadHashOf;
    hide AnswerFits;
    hide Names;
    hide Sealed;
    hide AllSealed;
    hide AllDelivered;
    var s, s' := Execute(acts), Execute(acts + more);
    var job := s'.txs[tid].job;
    ExecuteGrows(acts, more);
    assert RowGrows(s.db.wagers[id], s'.db.wagers[id]);
    AnsweredFits(acts + more, tid, reply);
    JobIsNormal(acts + more, tid);
    if job.inbox.Some? {
      ExecuteSealed(acts + more);
      assert SealedJob(job);
      SealedAsNormal(job.raw, job.cmd, job.inbox);
      RunDelivers(s'.history);
    }
    RepeatIsNamed(s', job, reply, id);
    FrozenAnswers(acts, more, tid, id, reply);
  }
}
