/** Small shared vocabulary: optional values, condition reasons and conditions. */
module Base {

  datatype Option<+T> = None | Some(value: T)

  /** Every reason the two reconcilers or the error classification put on a condition. */
  datatype Reason =
    // tunnel and route exits
    | Synced | CredentialUnreadable | NotSynced | AgentUnavailable | Online | Unknown | Offline
    | AgentRunning | NoReplicasAvailable
    | TunnelNotFound | TunnelNotReady | UpstreamUnresolved | Resolved | Published
    // verdicts of Classify
    | EndpointUnreachable | OtherError | CredentialMissingRoleScope | CredentialNotMappedToAccount
    | InvalidSpec | HostnameConflict | QuotaExceeded | TunnelNotActive
    | RefusedBeforeReachingAPI | Forbidden | RateLimited | ServerError | Rejected

  /** One entry of a status condition list; Unset is a type that was never written. */
  datatype Condition = Unset | Condition(status: bool, reason: Reason, generation: nat) {
    predicate True() {
      Condition? && status
    }
  }

  /** What a reconcile returns: a delay (0 is "none") and whether there was an error. */
  datatype Exit = Exit(requeueAfter: nat, failed: bool)

  /** The slow retry and the resync are both five minutes; a tunnel still being made is fifteen seconds. */
  const RESYNC_PERIOD: nat := 300
  const PERMANENT_RETRY_PERIOD: nat := 300
  const TUNNEL_NOT_READY_RETRY: nat := 15
}
