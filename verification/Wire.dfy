/** Task messages exchanged between a lead and an executor. */
module Wire {
  import opened Core

  datatype Kind = Aid | Project | OtherKind

  /** `requires`: absent, an empty array, or anything else. */
  datatype Demands = NoDemands | EmptyDemands | SomeDemands

  /**
   * The fields of a task.offer body that its readers look at. `deliverables` says the body carries a
   * contract with a deliverables array, `summary` that it has a nonempty summary string, `json` that
   * every number in it is a safe integer and its nesting is at most 64.
   */
  datatype OfferBody = OfferBody(
    kind: Kind, deliverables: bool, summary: bool, project: bool, payloadRef: bool,
    leaseMs: Field<int>, offerTtlMs: Field<int>, demands: Demands,
    requiredCaps: Field<seq<string>>, json: bool, contract: Contract)

  /** A contract as the lead admits it: absent, malformed, or a list of declared deliverable paths. */
  datatype Contract = NoContract | BadContract | Declared(paths: seq<Option<string>>)

  datatype RejectCode =
    | Busy | PolicyDenied | UnsupportedCaps | UnsupportedVersion | UnsupportedType
    | Expired | RefusedLoop | StaleAttempt | OtherReject

  datatype CancelReason = UserCancel | ReclaimCancel | AcceptanceFailed

  datatype StopReason = StopCancel | LeaseExpired | Shutdown | ExecutionInterrupted | DriverStartTimeout

  /** Why a run failed, when the executor itself says so. */
  datatype Failure =
    | Stopped(reason: StopReason) | StoppedByDriver | WorkspacePrepareFailed
    | DriverUnavailable | ArtifactPublishFailed

  /** A driver outcome: an opaque result or failure body, or a failure the executor made. */
  datatype Outcome =
    | ResultOutcome(content: nat) | FailOutcome(retryable: bool, content: nat) | OwnFailure(failure: Failure)

  datatype Body =
    | Offer(offer: OfferBody)
    | Accept(leaseMs: Field<int>, generation: Field<int>, runId: Field<Uuid>)
    | Reject(code: RejectCode, retryAfter: bool)
    | Progress(seq_: Field<int>, generation: Field<int>, runId: Field<Uuid>)
    | Renew(generation: Field<int>, runId: Field<Uuid>, progressMsgId: Field<Uuid>, progressSeq: Field<int>,
            renewalSeq: Field<int>, deadlineMs: Field<int>)
    | Delivery(outcome: Outcome)                       // task.result
    | Fail(retryable: bool, outcome: Outcome)          // task.fail
    | Cancel(reason: CancelReason, generation: Field<int>, runId: Field<Uuid>)
    | CancelAck(completedBeforeCancel: bool)
    | Unknown

  /** What a component asks to have sealed and sent. */
  datatype Outbound = Outbound(to: Uuid, task: Option<Uuid>, attempt: Option<int>, replyTo: Option<Uuid>, body: Body)

  /** A received envelope; times are the parsed `ts` and `exp`. */
  datatype Envelope = Envelope(
    msgId: Uuid, from: Uuid, fromTeam: Uuid, to: Uuid, signed: bool, ts: Option<int>, exp: Option<int>,
    task: Option<Uuid>, attempt: Option<int>, body: Body)
}
