/** The timing rules that the configuration is held to at start (internal/platform/config/config.go). */
module Config {
  import opened Prelude
  import Delivery
  import Outbox
  import Store

  datatype Config = Config(
    process: int64, visibility: int64, shutdown: int64, lease: int64, poll: int64, referenceTtl: int64,
    concurrency: int, publishBatch: int, referenceMaxAttempts: int)

  /** Go's int64 addition of durations wraps around. */
  function Wrap(x: int): (r: int64)
    ensures MIN_INT64 <= x <= MAX_INT64 ==> r == x
  {
    (x - MIN_INT64) % 0x1_0000_0000_0000_0000 + MIN_INT64
  }

  /** Load's checks on worker bounds and deadlines, as they are written. */
  predicate Accepts(c: Config) {
    && !(c.concurrency < 1 || c.concurrency > 10 || c.referenceMaxAttempts < 1 || c.process <= 0 || c.poll <= 0 ||
      c.referenceTtl <= 0)
    && !(c.publishBatch < 1 || c.publishBatch > Store.MAX_BATCH)
    && !(|| Wrap(c.process + 10 * SECOND) >= c.visibility || c.shutdown >= c.visibility || c.shutdown <= c.process
         || c.lease < Wrap(c.process + 10 * SECOND))
    && !(c.visibility % SECOND != 0 || c.visibility > 12 * HOUR)
  }

  /**
   * A configuration is accepted exactly if its numbers fit, counted without wrapping: the cap on visibility bounds
   * every sum of an accepted one.
   */
  lemma AcceptedIsExact(c: Config)
    ensures Accepts(c) <==>
      && 1 <= c.concurrency <= 10 && 1 <= c.publishBatch <= 100 && c.referenceMaxAttempts >= 1
      && c.poll > 0 && c.referenceTtl > 0
      && 0 < c.process < c.shutdown < c.visibility <= 12 * HOUR && c.visibility % SECOND == 0
      && c.process + 10 * SECOND < c.visibility && c.process + 10 * SECOND <= c.lease
  {
  }

  /** Acknowledging a message may take five seconds after processing, and giving it back three. */
  const ACKNOWLEDGE: Time := 5 * SECOND

  /**
   * Under an accepted configuration, counted from the server's clock reading in the claim statement: a publisher
   * ends strictly before its lease, a reference retry ends strictly before its claim expires, and the handling of a
   * message ends strictly before the message becomes visible again.
   */
  lemma WorkEndsInTime(c: Config, t: Outbox.Task)
    requires Accepts(c)
    ensures Delivery.Deadline(t, c.process) < t.claimedAt + Millis(c.lease)
    ensures Delivery.CLAIM_CALL + c.process < Millis(c.lease)
    ensures c.process + ACKNOWLEDGE + Delivery.CLEANUP < c.visibility
  {
    AcceptedIsExact(c);
  }

  /** So runs of workers that honour their deadlines are punctual: one live publisher per event. */
  lemma OnePublisher(c: Config, acts: seq<Outbox.Action>, longest: nat)
    requires Accepts(c)
    requires forall i :: 0 <= i < |acts| ==> Honoured(acts, longest, c, i)
    ensures var s := Outbox.Execute(acts, longest); Delivery.LiveUnique(s, c.process) && Delivery.LiveOwn(s, c.process)
  {
    AcceptedIsExact(c);
    forall i | 0 <= i < |acts| ensures Delivery.Punctual(Outbox.Execute(acts[..i], longest), acts[i], c.process) {
      assert Honoured(acts, longest, c, i);
    }
    Delivery.OneLivePublisher(acts, longest, c.process);
  }

  /**
   * Claims use the configured lease, steps happen before their deadline, and claims are released once local jobs have
   * stopped.
   */
  ghost predicate Honoured(acts: seq<Outbox.Action>, longest: nat, c: Config, i: nat)
    requires i < |acts|
  {
    var s, a := Outbox.Execute(acts[..i], longest), acts[i];
    && (a.Take? ==> a.lease == c.lease)
    && (a.Publish? || a.Mark? || a.GiveUp? ==> Delivery.Live(s, a.tid, c.process))
    && (a.Release? ==> forall t :: Delivery.Live(s, t, c.process) ==> s.tasks[t].owner != a.owner)
  }
}
