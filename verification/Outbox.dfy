/** One row of the outbox table, and the questions asked of the table as a whole. */
module Outbox {
  import opened Wrappers

  const MAX_OUTBOX_BACKOFF_SECONDS: nat := 300

  // The body of a dispatch message.
  datatype Dispatch = Dispatch(eventId: nat, jobId: nat)

  datatype Event = Event(
    job: nat,                     // aggregate_id
    payload: Dispatch,
    availableAt: int,
    publishAttempts: nat,
    publishedAt: Option<int>,
    lastError: Option<string>,
    createdAt: int)

  function DispatchEvent(id: nat, job: nat, availableAt: int, now: int): Event {
    Event(job, Dispatch(id, job), availableAt, 0, None, None, now)
  }

  function Published(event: Event, now: int): Event {
    event.(publishedAt := Some(now), lastError := None)
  }

  function FailureRecorded(event: Event, error: string, nextAvailableAt: int): Event {
    event.(publishAttempts := event.publishAttempts + 1, lastError := Some(error), availableAt := nextAvailableAt)
  }

  predicate Unpublished(events: map<nat, Event>, e: nat, job: nat) {
    e in events && events[e].job == job && events[e].publishedAt.None?
  }

  predicate HasUnpublished(events: map<nat, Event>, job: nat) {
    exists e | e in events :: Unpublished(events, e, job)
  }

  predicate Due(events: map<nat, Event>, e: nat, now: int) {
    e in events && events[e].publishedAt.None? && events[e].availableAt <= now
  }

  function Pow2(n: nat): (p: nat)
    ensures p >= 1
  {
    if n == 0 then 1 else 2 * Pow2(n - 1)
  }

  // The wait before a failed publish is tried again.
  function RetryDelaySeconds(nextAttempt: nat): nat {
    Min(Pow2(Max(nextAttempt - 1, 0)), MAX_OUTBOX_BACKOFF_SECONDS)
  }

  /** A failed event always waits, never longer than the cap, and never less than after an earlier failure. */
  lemma {:induction false} RetryDelayIsBoundedAndMonotone(n: nat, k: nat)
    requires n <= k
    ensures 1 <= RetryDelaySeconds(n) <= RetryDelaySeconds(k) <= MAX_OUTBOX_BACKOFF_SECONDS
  {
    Pow2Monotone(Max(n - 1, 0), Max(k - 1, 0));
  }

  lemma {:induction false} Pow2Monotone(n: nat, k: nat)
    requires n <= k
    ensures Pow2(n) <= Pow2(k)
  {
    if n < k {
      Pow2Monotone(n, k - 1);
    }
  }

  /** The first failure is waited out for a second, and every further one twice as long, up to five minutes. */
  lemma RetryDelaysDouble(n: nat)
    requires n >= 1
    ensures RetryDelaySeconds(1) == 1
    ensures RetryDelaySeconds(n + 1) == if RetryDelaySeconds(n) < 150 then 2 * RetryDelaySeconds(n) else 300
  {
    assert Pow2(n) == 2 * Pow2(n - 1);
  }

  lemma Pow2Values()
    ensures Pow2(8) == 256 && Pow2(9) == 512
  {
    assert Pow2(4) == 16 && Pow2(6) == 64;
  }

  /** Two counts have the same delay exactly if they are the same, or both beyond the cap. */
  lemma DelaysAgree(n: nat, k: nat)
    ensures RetryDelaySeconds(n + 1) == RetryDelaySeconds(k + 1) <==> n == k || (n >= 9 && k >= 9)
  {
    if n > k {
      DelaysDiffer(k, n);
    } else if n < k {
      DelaysDiffer(n, k);
    }
  }

  lemma DelaysDiffer(n: nat, k: nat)
    requires n < k
    ensures RetryDelaySeconds(n + 1) == RetryDelaySeconds(k + 1) <==> n >= 9
  {
    Pow2Values();
    if n >= 9 {
      Pow2Monotone(9, n);
      Pow2Monotone(9, k);
    } else {
      Pow2Monotone(n, 8);
      Pow2Monotone(n + 1, k);
    }
  }
}
