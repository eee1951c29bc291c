/** The transport object: each method that takes a lock performs one step of the models. */
module TransportClass {
  import opened Wrappers
  import opened TransportMessages
  import I = InflightTable
  import Q = DownlinkQueue

  class SomeIpVehicleMessageTransport {
    const lim: Limits
    const capacity: nat
    const workerCount: nat
    var stopping: bool
    var inflight: I.Entries
    var inflightSeq: nat
    ghost var active: set<Id>
    var queueStopping: bool
    var checked: seq<Message>
    var queue: seq<Message>
    var downlinkDropped: nat
    var exitedWorkers: nat
    ghost var admitted: seq<Message>
    ghost var taken: seq<Message>
    ghost var dropped: seq<Message>
    ghost var offered: seq<Message>
    ghost var late: seq<Message>
    ghost var arrived: seq<Message>

    ghost function Table(): I.State
      reads this
    {
      I.State(inflight, inflightSeq, active)
    }

    ghost function Down(): Q.State
      reads this
    {
      Q.State(capacity, workerCount, stopping, queueStopping, checked, queue, admitted, taken, dropped, offered, late,
              arrived, exitedWorkers)
    }

    /** A started transport. */
    constructor (lim: Limits, capacity: nat, workerCount: nat)
      ensures Table() == I.EMPTY && Down() == Q.Started(capacity, workerCount) && this.lim == lim
    {
      this.lim, this.capacity, this.workerCount := lim, capacity, workerCount;
      stopping, inflight, inflightSeq, active := false, map[], 0, {};
      queueStopping, checked, queue, downlinkDropped, exitedWorkers := false, [], [], 0, 0;
      admitted, taken, dropped, offered, late, arrived := [], [], [], [], [], [];
    }

    // ------------------------------------------------------------------ requests in flight

    static method EvictExpired(t: I.Entries, now: int) returns (kept: I.Entries)
      ensures kept == I.Evicted(t, now)
    {
      kept := t;
      var left := t.Keys;
      while left != {}
        invariant left <= t.Keys
        invariant kept == map id | id in t && (id in left || t[id].deadlineMs > now) :: t[id]
        decreases left
      {
        var id :| id in left;
        if t[id].deadlineMs <= now {
          kept := kept - {id};
        }
        left := left - {id};
      }
    }

    method ReserveInflight(id: Id, deadlineMs: int, now: int) returns (ok: bool)
      requires id !in active
      modifies `inflight, `inflightSeq, `active
      ensures Table() == I.Perform(old(Table()), lim.maxInFlight, I.Reserve(id, deadlineMs, now))
      ensures ok == I.Free(old(Table()), lim.maxInFlight, id, now) && (id in active <==> ok)
    {
      inflight := EvictExpired(inflight, now);
      if id in inflight {
        return false;
      }
      if |inflight| >= lim.maxInFlight {
        return false;
      }
      inflightSeq := inflightSeq + 1;
      inflight := inflight[id := I.Entry(deadlineMs, inflightSeq)];
      active := active + {id};
      ok := true;
    }

    method ReleaseInflight(id: Id)
      requires id in active
      modifies `inflight, `active
      ensures Table() == I.Perform(old(Table()), lim.maxInFlight, I.Release(id))
    {
      inflight := inflight - {id};
      active := active - {id};
    }

    /** What the answer to a released request comes to. */
    static method CheckAnswer(m: Message, lim: Limits, e: ExchangeEnv) returns (outcome: Outcome, response: Option<Message>)
      requires e.wireSize <= lim.maxEnvelope && e.answer.Some?
      ensures (outcome, response) == Verdict(m, lim, e)
    {
      var result := e.answer.value;
      if !result.success {
        var mapped := MapCallResult(result);
        if mapped == Unavailable && e.versionMismatch {
          return VersionMismatch, None;
        }
        return mapped, None;
      }
      if e.decoded.None? {
        return ProtocolError, None;
      }
      var resp := e.decoded.value;
      if resp.correlationId.None? || resp.correlationId.value != m.messageId {
        return ProtocolError, None;
      }
      if resp.kind != Response {
        return ProtocolError, None;
      }
      var checkedIn := ValidateInbound(resp, lim.maxPayload, e.receivedAt);
      if checkedIn != Accepted {
        return checkedIn, None;
      }
      return Accepted, Some(resp);
    }

    /** The call of a reserved request: each of the three ways on, too large, timed out and
        answered, releases the request itself, once. */
    method CallReserved(m: Message, e: ExchangeEnv) returns (outcome: Outcome, response: Option<Message>)
      requires m.messageId in active
      modifies `inflight, `active
      ensures (outcome, response) == Verdict(m, lim, e)
      ensures Table() == I.Perform(old(Table()), lim.maxInFlight, I.Release(m.messageId))
      ensures m.messageId !in inflight && m.messageId !in active
    {
      if e.wireSize > lim.maxEnvelope {
        ReleaseInflight(m.messageId);
        return PayloadTooLarge, None;
      }
      if e.answer.None? {
        ReleaseInflight(m.messageId);
        return Timeout, None;
      }
      ReleaseInflight(m.messageId);
      outcome, response := CheckAnswer(m, lim, e);
    }

    /** A whole exchange. On every path the request's own entry is gone when it returns, and a
        message is returned exactly when the call is accepted. */
    method Exchange(m: Message, timeout: int, e: ExchangeEnv) returns (outcome: Outcome, response: Option<Message>)
      requires m.messageId !in active && inflight.Keys <= active
      modifies `inflight, `inflightSeq, `active
      ensures m.messageId !in inflight && active == old(active) && inflight.Keys <= active
      ensures var refused := Refusal(m, stopping, lim, e);
              var reserve := I.Reserve(m.messageId, Deadline(timeout, lim, e.reservedAt), e.reservedAt);
              var reserved := I.Perform(old(Table()), lim.maxInFlight, reserve);
              if refused.Some? then outcome == refused.value && response.None? && Table() == old(Table())
              else if !I.Free(old(Table()), lim.maxInFlight, m.messageId, e.reservedAt)
              then outcome == Rejected && response.None? && Table() == reserved
              else
                && (outcome, response) == Verdict(m, lim, e)
                && Table() == I.Perform(reserved, lim.maxInFlight, I.Release(m.messageId))
      ensures outcome == Accepted ==>
                && response.Some? && response.value.correlationId == Some(m.messageId) && response.value.kind == Response
                && ValidateInbound(response.value, lim.maxPayload, e.receivedAt) == Accepted
    {
      AcceptedMeansAnswered(m, lim, e);
      if stopping {
        return Stopping, None;
      }
      if m.kind != Request {
        return ProtocolError, None;
      }
      if m.messageId == "" {
        return Rejected, None;
      }
      var checkedOut := ValidateOutbound(m, lim.maxPayload, e.checkedAt);
      if checkedOut != Accepted {
        return checkedOut, None;
      }
      var t := if timeout < lim.exchangeTimeout then timeout else lim.exchangeTimeout;
      if t <= 0 {
        t := lim.exchangeTimeout;
      }
      var reserved := ReserveInflight(m.messageId, e.reservedAt + t, e.reservedAt);
      if !reserved {
        return Rejected, None;
      }
      outcome, response := CallReserved(m, e);
    }

    // ----------------------------------------------------------------------------- downlink

    /** The part of the callback before the lock. */
    method CheckArrival(m: Message, now: int)
      modifies `checked, `arrived
      ensures Down() == Q.Perform(old(Down()), Q.Arrive(m, lim.maxPayload, now))
    {
      if stopping {
        return;
      }
      if m.kind != Event || ValidateInbound(m, lim.maxPayload, now) != Accepted {
        return;
      }
      checked := checked + [m];
      arrived := arrived + [m];
    }

    /** The part under the lock: discard after the stop flag, drop when full, else admit. */
    method EnqueueChecked(i: nat)
      requires i < |checked|
      modifies `checked, `queue, `downlinkDropped, `admitted, `dropped, `offered, `late
      ensures Down() == Q.Perform(old(Down()), Q.Enqueue(i))
    {
      var m := checked[i];
      checked := checked[..i] + checked[i + 1..];
      if queueStopping {
        late := late + [m];
        return;
      }
      offered := offered + [m];
      if |queue| >= capacity {
        downlinkDropped := downlinkDropped + 1;
        dropped := dropped + [m];
        return;
      }
      queue := queue + [m];
      admitted := admitted + [m];
    }

    /** One turn of a worker that has been woken: a message to handle, or the order to exit. */
    method WorkerTurn() returns (m: Option<Message>)
      requires exitedWorkers < workerCount && (queue != [] || queueStopping)
      modifies `queue, `taken, `exitedWorkers
      ensures m.Some? == (old(queue) != [])
      ensures Down() == Q.Perform(old(Down()), if m.Some? then Q.Take else Q.Exit)
      ensures m.Some? ==> taken == old(taken) + [m.value]
    {
      if queue == [] {
        exitedWorkers := exitedWorkers + 1;
        return None;
      }
      m := Some(queue[0]);
      queue := queue[1..];
      taken := taken + [m.value];
    }

    // --------------------------------------------------------------------------------- stop

    method RefuseCalls()
      modifies `stopping
      ensures stopping && Down() == Q.Perform(old(Down()), Q.RefuseCalls)
    {
      stopping := true;
    }

    method StopQueue()
      requires stopping
      modifies `queueStopping
      ensures queueStopping && Down() == Q.Perform(old(Down()), Q.StopQueue)
    {
      queueStopping := true;
    }

    /** After the workers have been joined. */
    method ClearInflight()
      modifies `inflight
      ensures Table() == I.Perform(old(Table()), lim.maxInFlight, I.ClearAll) && inflight == map[]
    {
      inflight := map[];
    }
  }
}
