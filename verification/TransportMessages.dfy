/** Messages of the vehicle transport and their checks. */
module TransportMessages {
  import opened Wrappers
  import opened Bytes

  type Id = string

  datatype MessageKind = Request | Response | Event | OtherKind

  datatype Message = Message(
    kind: MessageKind, service: string, protocolVersion: string, messageId: Id, correlationId: Option<Id>,
    expireAtMs: int, payload: ByteString)

  datatype Outcome =
    | Accepted | Rejected | Timeout | Unknown | Unavailable | VersionMismatch | PayloadTooLarge | ProtocolError | Stopping

  const SERVICE: string := "vehicle.fota"
  const PROTOCOL_VERSION: string := "fota-v1"

  predicate Expired(m: Message, now: int) {
    m.expireAtMs > 0 && m.expireAtMs < now
  }

  function ValidateOutbound(m: Message, maxPayload: nat, now: int): Outcome {
    if m.kind != Request && m.kind != Event then ProtocolError
    else if m.service != SERVICE then Rejected
    else if m.protocolVersion != PROTOCOL_VERSION then VersionMismatch
    else if m.messageId == "" then Rejected
    else if Expired(m, now) then Rejected
    else if |m.payload| > maxPayload then PayloadTooLarge
    else Accepted
  }

  function ValidateInbound(m: Message, maxPayload: nat, now: int): Outcome {
    if m.service != SERVICE then Rejected
    else if m.protocolVersion != PROTOCOL_VERSION then VersionMismatch
    else if Expired(m, now) then Rejected
    else if |m.payload| > maxPayload then PayloadTooLarge
    else Accepted
  }

  datatype CallResult = CallResult(success: bool, code: string, response: ByteString)

  /** Only a successful call maps to `Accepted`. */
  function MapCallResult(r: CallResult): (o: Outcome)
    ensures o == Accepted <==> r.success
  {
    if r.success then Accepted
    else if r.code == "CGW-FW-0305" then Timeout
    else if r.code == "CGW-FW-0306" then ProtocolError
    else if r.code == "CGW-FW-0307" || r.code == "CGW-FW-0309" || r.code == "CGW-FW-0308" then Rejected
    else if r.code == "CGW-FW-0310" then Stopping
    else if r.code == "CGW-FW-0301" || r.code == "CGW-FW-0302" || r.code == "CGW-FW-0303" || r.code == "CGW-FW-0304"
    then Unavailable
    else Unknown
  }

  /** What a request meets: times, the wire size, the answer of the call. */
  datatype ExchangeEnv = ExchangeEnv(
    checkedAt: int, reservedAt: int, wireSize: nat, answer: Option<CallResult>, versionMismatch: bool,
    decoded: Option<Message>, receivedAt: int)

  datatype Limits = Limits(maxInFlight: nat, maxPayload: nat, maxEnvelope: nat, exchangeTimeout: int)

  /** What is decided before the correlation is reserved; `None` to go on. */
  function Refusal(m: Message, stopping: bool, lim: Limits, e: ExchangeEnv): Option<Outcome> {
    if stopping then Some(Stopping)
    else if m.kind != Request then Some(ProtocolError)
    else if m.messageId == "" then Some(Rejected)
    else if ValidateOutbound(m, lim.maxPayload, e.checkedAt) != Accepted
    then Some(ValidateOutbound(m, lim.maxPayload, e.checkedAt))
    else None
  }

  function Deadline(timeout: int, lim: Limits, now: int): int {
    var t := if timeout < lim.exchangeTimeout then timeout else lim.exchangeTimeout;
    now + if t <= 0 then lim.exchangeTimeout else t
  }

  /** The verdict on the answer, after the correlation has been released. */
  function Verdict(m: Message, lim: Limits, e: ExchangeEnv): (Outcome, Option<Message>) {
    if e.wireSize > lim.maxEnvelope then (PayloadTooLarge, None)
    else if e.answer.None? then (Timeout, None)
    else if !e.answer.value.success then
      (if MapCallResult(e.answer.value) == Unavailable && e.versionMismatch then VersionMismatch
       else MapCallResult(e.answer.value), None)
    else
      match e.decoded
      case None => (ProtocolError, None)
      case Some(resp) =>
        if resp.correlationId != Some(m.messageId) || resp.kind != Response then (ProtocolError, None)
        else if ValidateInbound(resp, lim.maxPayload, e.receivedAt) != Accepted
        then (ValidateInbound(resp, lim.maxPayload, e.receivedAt), None)
        else (Accepted, Some(resp))
  }

  /** A call is accepted exactly when it was answered with a decodable response to this very
      request that passes the inbound checks; and then that response is returned. */
  lemma AcceptedMeansAnswered(m: Message, lim: Limits, e: ExchangeEnv)
    ensures Verdict(m, lim, e).0 == Accepted <==>
              && e.wireSize <= lim.maxEnvelope && e.answer.Some? && e.answer.value.success && e.decoded.Some?
              && e.decoded.value.correlationId == Some(m.messageId) && e.decoded.value.kind == Response
              && ValidateInbound(e.decoded.value, lim.maxPayload, e.receivedAt) == Accepted
    ensures Verdict(m, lim, e).1 == if Verdict(m, lim, e).0 == Accepted then e.decoded else None
  {
  }
}
