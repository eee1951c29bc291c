/** What each outcome of an exchange tells the caller, and how long a call is waited for. */
module TransportOutcomes {
  import opened Wrappers
  import opened TransportMessages

  // ---------------------------------------------------------------------- before the call

  /** A named request for this service and protocol that has not expired, whatever its size. */
  ghost predicate GoodRequest(m: Message, now: int) {
    && m.kind == Request && m.messageId != "" && m.service == "vehicle.fota" && m.protocolVersion == "fota-v1"
    && !(0 < m.expireAtMs < now)
  }

  /** A request goes on to the call if and only if it is good, fits, and the transport is not
      stopping; what each refusal means. */
  lemma RefusalsTell(m: Message, stopping: bool, lim: Limits, e: ExchangeEnv)
    ensures var refused := Refusal(m, stopping, lim, e);
            var named := !stopping && m.kind == Request && m.messageId != "";
            && (refused.None? <==> !stopping && GoodRequest(m, e.checkedAt) && |m.payload| <= lim.maxPayload)
            && (refused == Some(Stopping) <==> stopping)
            && (refused == Some(ProtocolError) <==> !stopping && m.kind != Request)
            && (refused == Some(VersionMismatch) <==>
                  named && m.service == "vehicle.fota" && m.protocolVersion != "fota-v1")
            && (refused == Some(PayloadTooLarge) <==>
                  !stopping && GoodRequest(m, e.checkedAt) && |m.payload| > lim.maxPayload)
            && (refused == Some(Rejected) <==>
                  && !stopping && m.kind == Request
                  && (|| m.messageId == "" || m.service != "vehicle.fota"
                      || (m.protocolVersion == "fota-v1" && 0 < m.expireAtMs < e.checkedAt)))
  {
  }

  /** A call is waited for as long as was asked, or as long as is allowed when that is longer or
      nothing sensible was asked. */
  lemma WaitIsAskedOrAllowed(timeout: int, lim: Limits, now: int)
    ensures 0 < timeout <= lim.exchangeTimeout ==> Deadline(timeout, lim, now) == now + timeout
    ensures !(0 < timeout <= lim.exchangeTimeout) ==> Deadline(timeout, lim, now) == now + lim.exchangeTimeout
  {
  }

  // ----------------------------------------------------------------------- after the call

  predicate FailedWith(e: ExchangeEnv, codes: set<string>) {
    e.answer.Some? && !e.answer.value.success && e.answer.value.code in codes
  }

  const KNOWN_CODES: set<string> :=
    {"CGW-FW-0301", "CGW-FW-0302", "CGW-FW-0303", "CGW-FW-0304", "CGW-FW-0305", "CGW-FW-0306", "CGW-FW-0307",
     "CGW-FW-0308", "CGW-FW-0309", "CGW-FW-0310"}

  /** The call was answered with a response to this request. */
  predicate AnsweredWith(m: Message, e: ExchangeEnv, resp: Message) {
    && e.answer.Some? && e.answer.value.success && e.decoded == Some(resp)
    && resp.correlationId == Some(m.messageId) && resp.kind == Response
  }

  predicate Answered(m: Message, e: ExchangeEnv) {
    e.decoded.Some? && AnsweredWith(m, e, e.decoded.value)
  }

  ghost predicate GoodResponse(resp: Message, now: int) {
    resp.service == "vehicle.fota" && resp.protocolVersion == "fota-v1" && !(0 < resp.expireAtMs < now)
  }

  /** What the outcome of a request that fits on the wire means; only an accepted one comes with
      a message, the response itself. */
  lemma OutcomesTell(m: Message, lim: Limits, e: ExchangeEnv)
    requires e.wireSize <= lim.maxEnvelope
    ensures var (outcome, response) := Verdict(m, lim, e);
            var resp := if e.decoded.Some? then e.decoded.value else m;
            && (response.Some? <==> outcome == Accepted) && (response.Some? ==> AnsweredWith(m, e, response.value))
            && (outcome == Accepted <==>
                  Answered(m, e) && GoodResponse(resp, e.receivedAt) && |resp.payload| <= lim.maxPayload)
            && (outcome == PayloadTooLarge <==>
                  Answered(m, e) && GoodResponse(resp, e.receivedAt) && |resp.payload| > lim.maxPayload)
            && (outcome == Timeout <==> e.answer.None? || FailedWith(e, {"CGW-FW-0305"}))
            && (outcome == Stopping <==> FailedWith(e, {"CGW-FW-0310"}))
            && (outcome == Unknown <==> e.answer.Some? && !e.answer.value.success && e.answer.value.code !in KNOWN_CODES)
            && (outcome == Unavailable <==>
                  FailedWith(e, {"CGW-FW-0301", "CGW-FW-0302", "CGW-FW-0303", "CGW-FW-0304"}) && !e.versionMismatch)
  {
  }

  /** The outcomes that come from the call as well as from the response. */
  lemma MixedOutcomesTell(m: Message, lim: Limits, e: ExchangeEnv)
    requires e.wireSize <= lim.maxEnvelope
    ensures var outcome := Verdict(m, lim, e).0;
            var resp := if e.decoded.Some? then e.decoded.value else m;
            && (outcome == VersionMismatch <==>
                  || (FailedWith(e, {"CGW-FW-0301", "CGW-FW-0302", "CGW-FW-0303", "CGW-FW-0304"}) && e.versionMismatch)
                  || (Answered(m, e) && resp.service == "vehicle.fota" && resp.protocolVersion != "fota-v1"))
            && (outcome == ProtocolError <==>
                  || FailedWith(e, {"CGW-FW-0306"})
                  || (e.answer.Some? && e.answer.value.success && !Answered(m, e)))
            && (outcome == Rejected <==>
                  || FailedWith(e, {"CGW-FW-0307", "CGW-FW-0308", "CGW-FW-0309"})
                  || (Answered(m, e) &&
                        (|| resp.service != "vehicle.fota"
                         || (resp.protocolVersion == "fota-v1" && 0 < resp.expireAtMs < e.receivedAt))))
  {
  }

  /** A request that does not fit on the wire is too large whatever the answer. */
  lemma TooLargeOnTheWire(m: Message, lim: Limits, e: ExchangeEnv)
    requires e.wireSize > lim.maxEnvelope
    ensures Verdict(m, lim, e) == (PayloadTooLarge, None)
  {
  }
}
