/** The two failover loops, Relay and RelayStream, as runs that leave a log of events. */
module Relay {
  import opened Delimiter
  import opened Domain
  import opened Stream

  datatype SendAnswer = SendError(code: int) | Answer(resp: Response)

  /** The collaborators of one Relayer. `send` also sees the attempt, so a URL may answer differently each time. */
  datatype Relayer = Relayer(
    session: string -> Result<Session, int>,
    choose: (string, seq<Endpoint>, RPCType) -> Result<seq<Endpoint>, int>,
    sign: (Session, Endpoint, RPCType, RelayInput) -> Result<bytes, int>,
    send: (nat, string, bytes, RPCType) -> SendAnswer,
    validate: (string, bytes) -> Result<RelayResult, int>,
    maxAttempts: int,
    hasStreamSender: bool)

  datatype Request = Request(service: string, rpc: RPCType, input: RelayInput)

  datatype Event =
    | Sent(supplier: string)
    | Opened(supplier: string)
    | Delivered(supplier: string, result: RelayResult)
    | Closed(supplier: string)
    | Observed(supplier: string, cause: Option<Cause>)

  /** The last error remembered by a loop. */
  datatype LastErr = Nothing | NoURL | Attempted(cause: Cause)

  datatype Failure =
    | NoStreamSender
    | NoSession(code: int)
    | NoSelection(code: int)
    | NoEndpoint
    | SignFailed(code: int)
    | AfterDelivery(cause: Cause)
    /** The callback panicked: the body is not closed and no outcome is reported. */
    | Unwound
    | AllFailed(attempts: nat, last: LastErr)

  datatype Run<S, T> = Run(state: S, log: seq<Event>, result: Result<T, Failure>)

  datatype Next<T> = Continue(last: LastErr) | Stop(result: Result<T, Failure>)
  datatype Attempt<S, T> = Attempt(state: S, log: seq<Event>, next: Next<T>)

  function Clamp(maxAttempts: int, n: nat): (k: nat)
    ensures k <= n
    ensures n > 0 ==> k > 0
    ensures maxAttempts > 0 ==> k <= maxAttempts
    ensures k == n || k == maxAttempts
  {
    if maxAttempts <= 0 || maxAttempts > n then n else maxAttempts
  }

  function Deliveries(supplier: string, got: seq<RelayResult>): (log: seq<Event>)
    ensures |log| == |got|
    ensures forall i :: 0 <= i < |got| ==> log[i] == Delivered(supplier, got[i])
  {
    if got == [] then [] else [Delivered(supplier, got[0])] + Deliveries(supplier, got[1..])
  }

  // ---- reference meaning of one attempt and of a loop ----

  function TryStream<S>(r: Relayer, session: Session, q: Request, i: nat, ep: Endpoint, s: S,
                        onBatch: Sink<S>): (a: Attempt<S, ()>)
  {
    if q.rpc !in ep.urls then Attempt(s, [], Continue(NoURL))
    else match r.sign(session, ep, q.rpc, q.input)
      case Err(e) => Attempt(s, [], Stop(Err(SignFailed(e))))
      case Ok(signed) =>
        match r.send(i, ep.urls[q.rpc], signed, q.rpc)
        case SendError(e) =>
          Attempt(s,
                  [Sent(ep.supplier), Observed(ep.supplier, Some(SendFailed(e)))],
                  Continue(Attempted(SendFailed(e))))
        case Answer(resp) =>
          Settled(ep.supplier, Consume(b => r.validate(ep.supplier, b), onBatch, s, resp))
  }

  /** An opened body that has been consumed and closed, unless the callback's panic unwound past both. */
  function Settled<S>(supplier: string, c: Consumed<S>): (a: Attempt<S, ()>) {
    Attempt(c.state,
            [Sent(supplier), Opened(supplier)] + Deliveries(supplier, c.got) + Wrapup(supplier, c.failure),
            if c.failure.None? then Stop(Ok(()))
            else if c.failure.value.Panicked? then Stop(Err(Unwound))
            else if c.got != [] then Stop(Err(AfterDelivery(c.failure.value)))
            else Continue(Attempted(c.failure.value)))
  }

  function Wrapup(supplier: string, failure: Option<Cause>): (log: seq<Event>) {
    if failure == Some(Panicked) then [] else [Closed(supplier), Observed(supplier, failure)]
  }

  function StreamFrom<S>(r: Relayer, session: Session, q: Request, eps: seq<Endpoint>, i: nat, s: S,
                         onBatch: Sink<S>, last: LastErr): (run: Run<S, ()>)
    requires i <= |eps|
    decreases |eps| - i
  {
    if i == |eps| then Run(s, [], Err(AllFailed(|eps|, last)))
    else
      var a := TryStream(r, session, q, i, eps[i], s, onBatch);
      match a.next
      case Stop(result) => Run(a.state, a.log, result)
      case Continue(e) =>
        var rest := StreamFrom(r, session, q, eps, i + 1, a.state, onBatch, e);
        rest.(log := a.log + rest.log)
  }

  /** The endpoints a run may try, in order, or why it tries none. */
  function Candidates(r: Relayer, q: Request): (c: Result<(Session, seq<Endpoint>), Failure>)
    ensures c.Ok? ==> c.value.1 != []
  {
    match r.session(q.service)
    case Err(e) => Err(NoSession(e))
    case Ok(session) =>
      match r.choose(q.service, session.endpoints, q.rpc)
      case Err(e) => Err(NoSelection(e))
      case Ok(ordered) =>
        if ordered == [] then Err(NoEndpoint)
        else Ok((session, ordered[..Clamp(r.maxAttempts, |ordered|)]))
  }

  function StreamRun<S>(r: Relayer, q: Request, s: S, onBatch: Sink<S>): (run: Run<S, ()>) {
    if !r.hasStreamSender then Run(s, [], Err(NoStreamSender))
    else match Candidates(r, q)
      case Err(e) => Run(s, [], Err(e))
      case Ok((session, eps)) => StreamFrom(r, session, q, eps, 0, s, onBatch, Nothing)
  }

  function TryRelay(r: Relayer, session: Session, q: Request, i: nat, ep: Endpoint): (a: Attempt<(), RelayResult>) {
    if q.rpc !in ep.urls then Attempt((), [], Continue(NoURL))
    else match r.sign(session, ep, q.rpc, q.input)
      case Err(e) => Attempt((), [], Stop(Err(SignFailed(e))))
      case Ok(signed) =>
        match SendWhole(r.send(i, ep.urls[q.rpc], signed, q.rpc))
        case Err(cause) => Missed(ep.supplier, cause)
        case Ok(data) =>
          match r.validate(ep.supplier, data)
          case Err(e) => Missed(ep.supplier, Invalid(e))
          case Ok(result) => Attempt((), [Sent(ep.supplier), Observed(ep.supplier, None)], Stop(Ok(result)))
  }

  function Missed(supplier: string, cause: Cause): (a: Attempt<(), RelayResult>) {
    Attempt((), [Sent(supplier), Observed(supplier, Some(cause))], Continue(Attempted(cause)))
  }

  /** Send, as the same exchange as SendStream read whole under the cap. */
  function SendWhole(answer: SendAnswer): (r: Result<bytes, Cause>) {
    match answer
    case SendError(e) => Err(SendFailed(e))
    case Answer(resp) => Whole(resp.body, MAX_RESPONSE_BYTES)
  }

  function RelayFrom(r: Relayer, session: Session, q: Request, eps: seq<Endpoint>, i: nat, last: LastErr)
    : (run: Run<(), RelayResult>)
    requires i <= |eps|
    decreases |eps| - i
  {
    if i == |eps| then Run((), [], Err(AllFailed(|eps|, last)))
    else
      var a := TryRelay(r, session, q, i, eps[i]);
      match a.next
      case Stop(result) => Run((), a.log, result)
      case Continue(e) =>
        var rest := RelayFrom(r, session, q, eps, i + 1, e);
        rest.(log := a.log + rest.log)
  }

  function RelayRun(r: Relayer, q: Request): (run: Run<(), RelayResult>) {
    match Candidates(r, q)
    case Err(e) => Run((), [], Err(e))
    case Ok((session, eps)) => RelayFrom(r, session, q, eps, 0, Nothing)
  }

  // ---- the code ----

  /** The loop body of RelayStream. */
  method AttemptStream<S>(r: Relayer, session: Session, q: Request, i: nat, ep: Endpoint, s: S,
                          onBatch: Sink<S>) returns (a: Attempt<S, ()>)
    ensures a == TryStream(r, session, q, i, ep, s, onBatch)
  {
    if q.rpc !in ep.urls {
      return Attempt(s, [], Continue(NoURL));
    }
    var signed := r.sign(session, ep, q.rpc, q.input);
    if signed.Err? {
      return Attempt(s, [], Stop(Err(SignFailed(signed.error))));
    }
    var log := [Sent(ep.supplier)];
    var answer := r.send(i, ep.urls[q.rpc], signed.value, q.rpc);
    if answer.SendError? {
      log := log + [Observed(ep.supplier, Some(SendFailed(answer.code)))];
      return Attempt(s, log, Continue(Attempted(SendFailed(answer.code))));
    }
    log := log + [Opened(ep.supplier)];
    var c := ConsumeBatches(b => r.validate(ep.supplier, b), onBatch, s, answer.resp);
    var delivered := c.got != [];
    log := log + Deliveries(ep.supplier, c.got);
    if c.failure == Some(Panicked) {
      SettledParts(ep.supplier, c);
      return Attempt(c.state, log, Stop(Err(Unwound)));
    }
    log := log + [Closed(ep.supplier)];
    log := log + [Observed(ep.supplier, c.failure)];
    SettledParts(ep.supplier, c);
    if c.failure.Some? {
      if delivered {
        return Attempt(c.state, log, Stop(Err(AfterDelivery(c.failure.value))));
      }
      return Attempt(c.state, log, Continue(Attempted(c.failure.value)));
    }
    return Attempt(c.state, log, Stop(Ok(())));
  }

  method RelayStream<S>(r: Relayer, q: Request, s0: S, onBatch: Sink<S>)
    returns (run: Run<S, ()>)
    ensures run == StreamRun(r, q, s0, onBatch)
  {
    if !r.hasStreamSender {
      return Run(s0, [], Err(NoStreamSender));
    }
    var candidates := Prepare(r, q);
    if candidates.Err? {
      return Run(s0, [], Err(candidates.error));
    }
    var (session, eps) := candidates.value;
    ghost var goal := StreamFrom(r, session, q, eps, 0, s0, onBatch, Nothing);
    var s, log: seq<Event>, lastErr, i := s0, [], Nothing, 0;
    assert [] + goal.log == goal.log;
    while i < |eps|
      invariant 0 <= i <= |eps|
      invariant var rest := StreamFrom(r, session, q, eps, i, s, onBatch, lastErr);
                goal == rest.(log := log + rest.log)
    {
      var a := AttemptStream(r, session, q, i, eps[i], s, onBatch);
      ghost var before := log;
      s, log := a.state, log + a.log;
      match a.next {
        case Stop(result) => return Run(s, log, result);
        case Continue(e) =>
          lastErr, i := e, i + 1;
          LogAssoc(before, a.log, StreamFrom(r, session, q, eps, i, s, onBatch, lastErr).log);
      }
    }
    assert log + [] == log;
    return Run(s, log, Err(AllFailed(|eps|, lastErr)));
  }

  /** A settled log, as the loop body writes it. */
  lemma SettledParts<S>(supplier: string, c: Consumed<S>)
    ensures var begun := [Sent(supplier)] + [Opened(supplier)] + Deliveries(supplier, c.got);
            Settled(supplier, c).log ==
            if c.failure == Some(Panicked) then begun else begun + [Closed(supplier)] + [Observed(supplier, c.failure)]
  {
    assert [Sent(supplier)] + [Opened(supplier)] == [Sent(supplier), Opened(supplier)];
    assert [Closed(supplier)] + [Observed(supplier, c.failure)] == [Closed(supplier), Observed(supplier, c.failure)];
  }

  lemma LogAssoc(a: seq<Event>, b: seq<Event>, c: seq<Event>)
    ensures a + (b + c) == (a + b) + c
  {
  }

  /** Session, selection and the attempt clamp, common to both loops. */
  method Prepare(r: Relayer, q: Request) returns (c: Result<(Session, seq<Endpoint>), Failure>)
    ensures c == Candidates(r, q)
  {
    var fetched := r.session(q.service);
    if fetched.Err? {
      return Err(NoSession(fetched.error));
    }
    var session := fetched.value;
    var chosen := r.choose(q.service, session.endpoints, q.rpc);
    if chosen.Err? {
      return Err(NoSelection(chosen.error));
    }
    var ordered := chosen.value;
    if |ordered| == 0 {
      return Err(NoEndpoint);
    }
    var attempts := r.maxAttempts;
    if attempts <= 0 || attempts > |ordered| {
      attempts := |ordered|;
    }
    return Ok((session, ordered[..attempts]));
  }

  method AttemptRelay(r: Relayer, session: Session, q: Request, i: nat, ep: Endpoint)
    returns (a: Attempt<(), RelayResult>)
    ensures a == TryRelay(r, session, q, i, ep)
  {
    if q.rpc !in ep.urls {
      return Attempt((), [], Continue(NoURL));
    }
    var signed := r.sign(session, ep, q.rpc, q.input);
    if signed.Err? {
      return Attempt((), [], Stop(Err(SignFailed(signed.error))));
    }
    var sent := Send(r, i, ep.urls[q.rpc], signed.value, q.rpc);
    if sent.Err? {
      return Missed(ep.supplier, sent.error);
    }
    var result := r.validate(ep.supplier, sent.value);
    if result.Err? {
      return Missed(ep.supplier, Invalid(result.error));
    }
    return Attempt((), [Sent(ep.supplier), Observed(ep.supplier, None)], Stop(Ok(result.value)));
  }

  method Send(r: Relayer, i: nat, url: string, signed: bytes, rpc: RPCType) returns (data: Result<bytes, Cause>)
    ensures data == SendWhole(r.send(i, url, signed, rpc))
  {
    var answer := r.send(i, url, signed, rpc);
    if answer.SendError? {
      return Err(SendFailed(answer.code));
    }
    data := ReadCapped(answer.resp.body, MAX_RESPONSE_BYTES);
  }

  method RelayOnce(r: Relayer, q: Request) returns (run: Run<(), RelayResult>)
    ensures run == RelayRun(r, q)
  {
    var candidates := Prepare(r, q);
    if candidates.Err? {
      return Run((), [], Err(candidates.error));
    }
    var (session, eps) := candidates.value;
    ghost var goal := RelayFrom(r, session, q, eps, 0, Nothing);
    var log: seq<Event>, lastErr, i := [], Nothing, 0;
    assert [] + goal.log == goal.log;
    while i < |eps|
      invariant 0 <= i <= |eps|
      invariant var rest := RelayFrom(r, session, q, eps, i, lastErr);
                goal == rest.(log := log + rest.log)
    {
      var a := AttemptRelay(r, session, q, i, eps[i]);
      ghost var before := log;
      log := log + a.log;
      match a.next {
        case Stop(result) => return Run((), log, result);
        case Continue(e) =>
          lastErr, i := e, i + 1;
          LogAssoc(before, a.log, RelayFrom(r, session, q, eps, i, lastErr).log);
      }
    }
    assert log + [] == log;
    return Run((), log, Err(AllFailed(|eps|, lastErr)));
  }
}
