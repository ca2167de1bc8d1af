/** internal/nubulus/errors.go: the error chain and its classification. */
module Errors {
  import opened Base

  /** An error chain: Wrapped is fmt.Errorf("...: %w", cause), Transport unwraps to its cause too. */
  datatype Error =
    | APIError(status: int, code: Code)
    | Transport(cause: Error)
    | Wrapped(cause: Error)
    | Plain

  /** The code of the API's error envelope: those matched by name, any other, and no envelope at all. */
  datatype Code =
    | CodeNoAccountRole | CodeNoAccount | CodeNotFound | CodeInvalidInput | CodeHostnameConflict
    | CodeQuotaExceeded | CodeTunnelInactive
    | OtherCode(name: string)
    | NoCode

  /** errors.As for *APIError: the first API error of the chain. */
  function AsAPI(e: Error): Option<Error> {
    match e
    case APIError(_, _) => Some(e)
    case Transport(c) => AsAPI(c)
    case Wrapped(c) => AsAPI(c)
    case Plain => None
  }

  /** errors.As for *TransportError: is there one anywhere in the chain. */
  predicate AsTransport(e: Error) {
    match e
    case Transport(_) => true
    case Wrapped(c) => AsTransport(c)
    case _ => false
  }

  function StatusOf(e: Error): int {
    match AsAPI(e)
    case Some(APIError(status, _)) => status
    case _ => 0
  }

  function CodeOf(e: Error): Code {
    match AsAPI(e)
    case Some(APIError(_, code)) => code
    case _ => NoCode
  }

  predicate IsNotFound(e: Error) {
    StatusOf(e) == 404
  }

  datatype Failure = Failure(permanent: bool, reason: Reason)

  function Classify(e: Error): Failure {
    if AsTransport(e) then Failure(false, EndpointUnreachable)
    else match AsAPI(e)
      case Some(APIError(status, code)) =>
        if code == CodeNoAccountRole then Failure(true, CredentialMissingRoleScope)
        else if code == CodeNoAccount then Failure(true, CredentialNotMappedToAccount)
        else if code == CodeInvalidInput then Failure(true, InvalidSpec)
        else if code == CodeHostnameConflict then Failure(true, HostnameConflict)
        else if code == CodeQuotaExceeded then Failure(false, QuotaExceeded)
        else if code == CodeTunnelInactive then Failure(false, TunnelNotActive)
        else if status == 401 || status == 403 then
          if code == NoCode then Failure(false, RefusedBeforeReachingAPI) else Failure(true, Forbidden)
        else if status == 429 then Failure(false, RateLimited)
        else if status >= 500 then Failure(false, ServerError)
        else Failure(true, Rejected)
      case _ => Failure(false, OtherError)
  }

  /** The codes that are matched by name. */
  predicate Recognised(code: Code) {
    code in {CodeNoAccountRole, CodeNoAccount, CodeInvalidInput, CodeHostnameConflict, CodeQuotaExceeded,
             CodeTunnelInactive}
  }

  /** An error wrapped `depth` times on its way up. */
  function Wrap(e: Error, depth: nat): Error {
    if depth == 0 then e else Wrapped(Wrap(e, depth - 1))
  }

  /** Wrapping never changes what a caller sees of an error, at any depth. */
  lemma {:induction false} WrappingIsInvisible(e: Error, depth: nat)
    ensures AsAPI(Wrap(e, depth)) == AsAPI(e)
    ensures AsTransport(Wrap(e, depth)) == AsTransport(e)
    ensures Classify(Wrap(e, depth)) == Classify(e)
    ensures IsNotFound(Wrap(e, depth)) == IsNotFound(e)
  {
    if depth > 0 {
      WrappingIsInvisible(e, depth - 1);
    }
  }

  /** For a code matched by name the verdict ignores the HTTP status and the wrapping; it is
      transient for exactly the two refusals that lift on their own. */
  lemma {:induction false} RecognisedCodeDecides(code: Code, status: int, status': int, depth: nat, depth': nat)
    requires Recognised(code)
    ensures Classify(Wrap(APIError(status, code), depth)) == Classify(Wrap(APIError(status', code), depth'))
    ensures Classify(Wrap(APIError(status, code), depth)).permanent
            <==> code != CodeQuotaExceeded && code != CodeTunnelInactive
  {
    WrappingIsInvisible(APIError(status, code), depth);
    WrappingIsInvisible(APIError(status', code), depth');
  }

  /** Whatever the chain, a verdict is permanent exactly when the API itself answered (nothing in
      the chain failed in transport) and either a code says so, or no code decides and the status is
      a refusal that is neither a throttle, nor a server fault, nor a 401/403 without an envelope. */
  lemma {:induction false} PermanentExactlyWhen(e: Error)
    ensures Classify(e).permanent <==>
            && !AsTransport(e)
            && AsAPI(e).Some?
            && (if Recognised(CodeOf(e))
                then CodeOf(e) !in {CodeQuotaExceeded, CodeTunnelInactive}
                else StatusOf(e) < 500 && StatusOf(e) != 429 && (StatusOf(e) in {401, 403} ==> CodeOf(e) != NoCode))
  {
    AsAPIIsAPI(e);
  }

  lemma {:induction false} AsAPIIsAPI(e: Error)
    ensures AsAPI(e).Some? ==> AsAPI(e).value.APIError?
  {
    match e
    case Transport(c) => AsAPIIsAPI(c);
    case Wrapped(c) => AsAPIIsAPI(c);
    case _ =>
  }

  /** Whatever the chain, the reason that ends up on a condition says what went wrong: the transport, a code matched by
      name, or else the status. */
  lemma ReasonTells(e: Error)
    ensures AsTransport(e) <==> Classify(e).reason == EndpointUnreachable
    ensures !AsTransport(e) && AsAPI(e).None? <==> Classify(e).reason == OtherError
    ensures !AsTransport(e) && AsAPI(e).Some? ==>
            && (CodeOf(e) == CodeNoAccountRole <==> Classify(e).reason == CredentialMissingRoleScope)
            && (CodeOf(e) == CodeNoAccount <==> Classify(e).reason == CredentialNotMappedToAccount)
            && (CodeOf(e) == CodeInvalidInput <==> Classify(e).reason == InvalidSpec)
            && (CodeOf(e) == CodeHostnameConflict <==> Classify(e).reason == HostnameConflict)
            && (CodeOf(e) == CodeQuotaExceeded <==> Classify(e).reason == QuotaExceeded)
            && (CodeOf(e) == CodeTunnelInactive <==> Classify(e).reason == TunnelNotActive)
            && (!Recognised(CodeOf(e)) ==>
                  && (StatusOf(e) in {401, 403} && CodeOf(e) == NoCode
                      <==> Classify(e).reason == RefusedBeforeReachingAPI)
                  && (StatusOf(e) in {401, 403} && CodeOf(e) != NoCode <==> Classify(e).reason == Forbidden)
                  && (StatusOf(e) == 429 <==> Classify(e).reason == RateLimited)
                  && (StatusOf(e) >= 500 <==> Classify(e).reason == ServerError))
  {
    AsAPIIsAPI(e);
  }

  /** The reasons that are not worth retrying before the slow retry. */
  predicate PermanentReason(reason: Reason) {
    || reason == CredentialMissingRoleScope || reason == CredentialNotMappedToAccount || reason == InvalidSpec
    || reason == HostnameConflict || reason == Forbidden || reason == Rejected
  }

  /** The reason on the condition alone tells whether the failure is permanent. */
  lemma ReasonDecides(e: Error)
    ensures Classify(e).permanent <==> PermanentReason(Classify(e).reason)
    ensures Classify(e).reason != CredentialUnreadable && Classify(e).reason != TunnelNotReady
    ensures Classify(e).reason != TunnelNotFound && Classify(e).reason != UpstreamUnresolved
  {
    AsAPIIsAPI(e);
  }

  /** However deep an answer of the API is wrapped, its status and its code are seen, and a 404 is what counts as not
      found; a failure in transport is seen as one. */
  lemma {:induction false} AnswersAreSeen(status: int, code: Code, cause: Error, depth: nat)
    ensures StatusOf(Wrap(APIError(status, code), depth)) == status
    ensures CodeOf(Wrap(APIError(status, code), depth)) == code
    ensures IsNotFound(Wrap(APIError(status, code), depth)) <==> status == 404
    ensures !AsTransport(Wrap(APIError(status, code), depth)) && AsTransport(Wrap(Transport(cause), depth))
    ensures !IsNotFound(Wrap(Plain, depth)) && !AsTransport(Wrap(Plain, depth))
  {
    WrappingIsInvisible(APIError(status, code), depth);
    WrappingIsInvisible(Transport(cause), depth);
    WrappingIsInvisible(Plain, depth);
  }
}
