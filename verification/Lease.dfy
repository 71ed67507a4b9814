/** Protocol parameters, lease arithmetic, and the rule that admits a lease renewal. */
module Lease {
  import opened Core
  import opened Wire

  datatype Params = Params(
    offerTtlMsProject: int, offerTtlMsAid: int, leaseMsProject: int, leaseMsAid: int,
    graceMs: int, drainMs: int, cancelWaitMs: int, maxAttempts: int, maxDispatchRounds: int)

  const DEFAULT_PARAMS := Params(60000, 10000, 300000, 120000, 30000, 30000, 30000, 3, 3)

  function HeartbeatIntervalMs(leaseMs: int): int {
    leaseMs / 3
  }

  function LostAfterMs(leaseMs: int, p: Params): int {
    2 * HeartbeatIntervalMs(leaseMs) + p.graceMs
  }

  function DefaultOfferTtlMs(kind: Kind, p: Params): int {
    if kind.Aid? then p.offerTtlMsAid else p.offerTtlMsProject
  }

  /**
   * Losing a lease and then draining must outlast the lease itself, so that a reclaimed run has expired.
   */
  predicate DrainCoversLease(leaseMs: int, p: Params) {
    leaseMs - 2 * HeartbeatIntervalMs(leaseMs) <= p.graceMs + p.drainMs
  }

  /** With the default parameters the window covers every lease up to 180 s, and the executor grants at most 120 s. */
  lemma DefaultsCoverEveryGrantedLease(leaseMs: int)
    requires 0 < leaseMs <= DEFAULT_PARAMS.leaseMsAid
    ensures DrainCoversLease(leaseMs, DEFAULT_PARAMS)
  {
    assert leaseMs - 2 * (leaseMs / 3) <= leaseMs / 3 + 2;
  }

  datatype Fence = Fence(task: Uuid, attempt: int, generation: int, runId: Uuid)

  predicate IsLeaseFence(f: Fence) {
    Positive(f.attempt) && Positive(f.generation)
  }

  predicate IsLeaseRenewalBody(b: Body) {
    && b.Renew? && PositiveField(b.generation) && b.runId.Val? && b.progressMsgId.Val?
    && PositiveField(b.progressSeq) && PositiveField(b.renewalSeq) && b.deadlineMs.Val?
  }

  /** Pure admission of a renewal against the current run; all times belong to one clock. */
  predicate CanApplyLeaseRenewal(b: Body, fence: Fence, progressMsgId: Uuid, progressSeq: int,
                                 lastRenewalSeq: int, now: int, maxLeaseMs: int, currentDeadline: int)
  {
    && IsLeaseRenewalBody(b) && IsLeaseFence(fence)
    && Positive(progressSeq)
    && Nonnegative(lastRenewalSeq)
    && maxLeaseMs > 0
    && b.generation.v == fence.generation
    && b.runId.v == fence.runId
    && b.progressMsgId.v == progressMsgId
    && b.progressSeq.v == progressSeq
    && b.renewalSeq.v > lastRenewalSeq
    && now < currentDeadline
    && now < b.deadlineMs.v
    && b.deadlineMs.v <= now + maxLeaseMs
  }
}
